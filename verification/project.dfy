/** A project instance as the logger records it: its global properties,
    formatted once at construction, and the distinguishing properties that
    the last disambiguation of its path group gave it. */
module Projects {
  import opened Text

  /** One key/value pair of a project-started event's global properties. */
  datatype Property = Property(key: string, value: string)

  /** A project instance.  `globalProperties` is fixed when the instance is
      created; `disambiguations` is rewritten whenever its group is relabelled. */
  datatype Project = Project(globalProperties: seq<string>, disambiguations: seq<string>) {

    /** The label shown after the project path: the disambiguations joined
        with ", ", or the empty string when there are none. */
    function Disambiguator(): (r: string)
      ensures |disambiguations| == 0 ==> r == ""
      ensures |disambiguations| > 0 ==>
        |r| == TotalLength(disambiguations) + 2 * (|disambiguations| - 1)
      ensures (|disambiguations| > 0
                 && forall k :: 0 <= k < |disambiguations| ==> ',' !in disambiguations[k])
              ==> Split(r, ", ") == disambiguations
    {
      if |disambiguations| > 0 then
        JoinLength(disambiguations, ", ");
        if forall k :: 0 <= k < |disambiguations| ==> ',' !in disambiguations[k] then
          SplitJoin(disambiguations, ", ");
          Join(disambiguations, ", ")
        else Join(disambiguations, ", ")
      else ""
    }
  }

  /** No element occurs twice. */
  predicate Distinct<T(==)>(s: seq<T>)
  {
    forall i, j :: 0 <= i < j < |s| ==> s[i] != s[j]
  }

  /** The set of elements of a sequence. */
  function Elems<T>(s: seq<T>): set<T>
  {
    set x | x in s
  }

  /** A sequence with no elements is empty. */
  lemma NoElemsEmpty<T>(s: seq<T>)
    requires Elems(s) == {}
    ensures |s| == 0
  {
    if |s| > 0 {
      HeadInElems(s);
    }
  }

  /** A duplicate-free sequence with the one element `x` is `[x]`. */
  lemma SingletonElems(s: seq<string>, x: string)
    requires Distinct(s) && Elems(s) == {x}
    ensures s == [x]
  {
    assert x in s;
    if |s| > 1 {
      InElems(s, 0);
      InElems(s, 1);
    }
  }

  /** The first element of a non-empty sequence is one of its elements. */
  lemma HeadInElems<T>(s: seq<T>)
    requires |s| > 0
    ensures s[0] in Elems(s)
  {
  }

  /** Every element of a sequence is one of its elements. */
  lemma InElems<T>(s: seq<T>, i: int)
    requires 0 <= i < |s|
    ensures s[i] in Elems(s)
  {
  }

  /** `$"{Key}={Value}"`. */
  function FormatProperty(p: Property): string
  {
    p.key + "=" + p.value
  }

  /** Reads a formatted property back: the key is everything before the first
      '=' and the value everything after it. */
  function ParseProperty(s: string): Property
  {
    var i := IndexOf(s, '=');
    Property(s[..i], s[if i < |s| then i + 1 else i..])
  }

  /** Formatting is undone by parsing whenever the key holds no '='. */
  lemma ParseFormat(p: Property)
    requires '=' !in p.key
    ensures ParseProperty(FormatProperty(p)) == p
  {
    var s := FormatProperty(p);
    assert s == p.key + ("=" + p.value);
    IndexOfAfter(p.key, "=" + p.value, '=');
    assert IndexOf(s, '=') == |p.key| < |s|;
    assert s[..|p.key|] == p.key;
    assert s[|p.key| + 1..] == p.value;
  }

  /** `ParseFormat` for every pair of a sequence. */
  lemma ParseFormatAll(props: seq<Property>)
    ensures PlainKeys(props) ==>
      forall i :: 0 <= i < |props| ==> ParseProperty(FormatProperty(props[i])) == props[i]
  {
    if PlainKeys(props) {
      forall i | 0 <= i < |props|
        ensures ParseProperty(FormatProperty(props[i])) == props[i]
      {
        ParseFormat(props[i]);
      }
    }
  }

  /** Keys are pairwise different (they come from a dictionary). */
  predicate DistinctKeys(props: seq<Property>)
  {
    forall i, j :: 0 <= i < j < |props| ==> props[i].key != props[j].key
  }

  /** Keys carry no '=' (MSBuild property names are identifiers). */
  predicate PlainKeys(props: seq<Property>)
  {
    forall i :: 0 <= i < |props| ==> '=' !in props[i].key
  }

  /** The constructor's `GlobalProperties` array: one formatted string per
      pair, in the pairs' order.  Each entry parses back to its pair, and
      distinct plain keys give distinct strings. */
  function FormatProperties(props: seq<Property>): (r: seq<string>)
    ensures |r| == |props|
    ensures PlainKeys(props) ==> forall i :: 0 <= i < |r| ==> ParseProperty(r[i]) == props[i]
    ensures forall i :: 0 <= i < |r| ==> '=' in r[i]
    ensures PlainKeys(props) && DistinctKeys(props) ==> Distinct(r)
  {
    var r := seq(|props|, i requires 0 <= i < |props| => FormatProperty(props[i]));
    assert forall i :: 0 <= i < |r| ==> r[i][|props[i].key|] == '=';
    ParseFormatAll(props);
    r
  }

  /** `new Project(e)`: formatted global properties and no disambiguations. */
  function NewProject(props: seq<Property>): (p: Project)
    ensures p.globalProperties == FormatProperties(props)
    ensures p.disambiguations == []
    ensures |p.globalProperties| == |props|
    ensures PlainKeys(props) ==>
      forall i :: 0 <= i < |props| ==> ParseProperty(p.globalProperties[i]) == props[i]
    ensures p.Disambiguator() == ""
  {
    Project(FormatProperties(props), [])
  }

  /** Only an instance without disambiguations shows an empty label (every
      formatted property holds a '=' and so is never empty). */
  lemma DisambiguatorEmptyIff(p: Project)
    requires forall k :: 0 <= k < |p.disambiguations| ==> |p.disambiguations[k]| > 0
    ensures p.Disambiguator() == "" <==> |p.disambiguations| == 0
  {
    JoinEmptyIff(p.disambiguations, ", ");
  }

  /** With one disambiguation the label is that string itself. */
  lemma DisambiguatorSingle(p: Project)
    requires |p.disambiguations| == 1
    ensures p.Disambiguator() == p.disambiguations[0]
  {
  }

  /** The label lists the disambiguations in order: cutting it at each ", "
      gives the list back when no entry holds a comma. */
  lemma DisambiguatorSplits(p: Project)
    requires |p.disambiguations| > 0
    requires forall k :: 0 <= k < |p.disambiguations| ==> ',' !in p.disambiguations[k]
    ensures Split(p.Disambiguator(), ", ") == p.disambiguations
  {
    SplitJoin(p.disambiguations, ", ");
  }

  /** Adding one more disambiguation appends ", " and that string to a
      non-empty label. */
  lemma DisambiguatorAppend(p: Project, d: string)
    requires |p.disambiguations| > 0
    ensures p.(disambiguations := p.disambiguations + [d]).Disambiguator()
         == p.Disambiguator() + ", " + d
  {
    JoinSnoc(p.disambiguations, d, ", ");
  }
}
