/**
 * How the resource-details view labels and shows a resource's properties: property names in
 * camel case are spread into words, values are turned into display text, and properties with
 * nothing to show are skipped.
 */
module PropertyDisplay {
  import opened Wrappers
  import opened Text

  // ---------------------------------------------------------------------------
  // formatPropertyName
  // ---------------------------------------------------------------------------

  /** What the class `[A-Z]` matches. */
  predicate IsUpper(c: char)
  {
    'A' <= c <= 'Z'
  }

  /** The characters `.` does not match. */
  predicate IsLineTerminator(c: char)
  {
    c == '\n' || c == '\r' || c == '\U{2028}' || c == '\U{2029}'
  }

  /** `.replace(/([A-Z])/g, ' $1')`: a space in front of every capital letter. */
  function SpaceUppercase(s: string): (r: string)
    ensures forall i :: 0 <= i < |r| && IsUpper(r[i]) ==> 0 < i && r[i - 1] == ' '
    decreases |s|
  {
    if s == [] then []
    else (if IsUpper(s[0]) then [' ', s[0]] else [s[0]]) + SpaceUppercase(s[1..])
  }

  /** The number of capital letters in `s`. */
  function CountUpper(s: string): (r: nat)
    decreases |s|
  {
    if s == [] then 0 else (if IsUpper(s[0]) then 1 else 0) + CountUpper(s[1..])
  }

  /**
   * `.replace(/^./, str => str.toUpperCase())`: the first character up-cased, unless it is a
   * line terminator, which `.` does not match; the rest is untouched.
   */
  function CapitalizeFirst(s: string): (r: string)
    ensures |r| == |s|
    ensures s != [] ==> r[1..] == s[1..]
    ensures s != [] && IsLineTerminator(s[0]) ==> r == s
    ensures s != [] && !IsLineTerminator(s[0]) ==> r[0] == Fold(s[0])
  {
    if s == [] || IsLineTerminator(s[0]) then s else [Fold(s[0])] + s[1..]
  }

  /** `formatPropertyName`. */
  function FormatPropertyName(name: string): (r: string)
    ensures |r| == |name| + CountUpper(name)
  {
    SpaceUppercaseLength(name);
    CapitalizeFirst(SpaceUppercase(name))
  }

  /** Spreading adds exactly one character per capital letter. */
  lemma {:induction false} SpaceUppercaseLength(s: string)
    ensures |SpaceUppercase(s)| == |s| + CountUpper(s)
    decreases |s|
  {
    if s != [] {
      SpaceUppercaseLength(s[1..]);
    }
  }

  /** A name that starts with a capital letter is shown with a leading space before it. */
  lemma LeadingUpperGivesSpace(name: string)
    requires name != [] && IsUpper(name[0])
    ensures |FormatPropertyName(name)| >= 2
    ensures FormatPropertyName(name)[0] == ' ' && FormatPropertyName(name)[1] == name[0]
  {
  }

  /** A name without capitals only has its first letter up-cased. */
  lemma {:induction false} NoUpperOnlyCapitalized(name: string)
    requires CountUpper(name) == 0
    ensures FormatPropertyName(name) == CapitalizeFirst(name)
  {
    NoUpperUnspread(name);
  }

  lemma {:induction false} NoUpperUnspread(s: string)
    requires CountUpper(s) == 0
    ensures SpaceUppercase(s) == s
    decreases |s|
  {
    if s != [] {
      NoUpperUnspread(s[1..]);
    }
  }

  /** Removes the space in front of each capital letter: the inverse of `SpaceUppercase`. */
  function Unspread(t: string): (r: string)
    ensures |r| <= |t|
    decreases |t|
  {
    if t == [] then []
    else if |t| >= 2 && t[0] == ' ' && IsUpper(t[1]) then [t[1]] + Unspread(t[2..])
    else [t[0]] + Unspread(t[1..])
  }

  /** A spread string never starts with a capital letter. */
  lemma SpreadStartsLower(s: string)
    requires s != []
    ensures SpaceUppercase(s) != [] && !IsUpper(SpaceUppercase(s)[0])
  {
  }

  /** No information is lost: the spaces added in front of capitals can be taken out again. */
  lemma {:induction false} UnspreadSpaceUppercase(s: string)
    ensures Unspread(SpaceUppercase(s)) == s
    decreases |s|
  {
    if s != [] {
      var rest := SpaceUppercase(s[1..]);
      UnspreadSpaceUppercase(s[1..]);
      if IsUpper(s[0]) {
        assert SpaceUppercase(s) == [' ', s[0]] + rest;
        assert (SpaceUppercase(s))[2..] == rest;
      } else {
        assert SpaceUppercase(s) == [s[0]] + rest;
        assert (SpaceUppercase(s))[1..] == rest;
        if rest != [] {
          SpreadStartsLower(s[1..]);
        }
      }
    }
  }

  /** So a camel-case name that starts with a small letter comes back, capitalized, once the added spaces are removed. */
  lemma FormatPropertyNameRecovers(name: string)
    requires name != [] && 'a' <= name[0] <= 'z'
    ensures Unspread(FormatPropertyName(name)) == [Fold(name[0])] + name[1..]
  {
    var rest := SpaceUppercase(name[1..]);
    assert SpaceUppercase(name) == [name[0]] + rest;
    var shown := FormatPropertyName(name);
    assert shown == [Fold(name[0])] + rest;
    assert shown[1..] == rest;
    UnspreadSpaceUppercase(name[1..]);
  }

  // ---------------------------------------------------------------------------
  // renderPropertyValue
  // ---------------------------------------------------------------------------

  /** A property value as the response JSON carries it; numbers are left as exact values. */
  datatype JsValue =
    | Null
    | Undefined
    | Bool(b: bool)
    | Number(n: real)
    | Str(s: string)
    | Array(items: seq<JsValue>)
    | Object(entries: seq<(string, JsValue)>)

  /** The text shown for a value; `JSON.stringify` and number formatting are left to the runtime. */
  datatype Rendered =
    | Text(text: string)
    | Json(value: JsValue)      // JSON.stringify(value)
    | NumberText(n: real)       // n.toString()

  /** `renderPropertyValue`. */
  function RenderPropertyValue(v: JsValue): (r: Rendered)
    ensures v.Null? || v.Undefined? ==> r == Text("None")
    ensures v.Bool? ==> r == Text(if v.b then "Yes" else "No")
    ensures v.Str? ==> r == Text(v.s)
    ensures v.Array? || v.Object? ==> r == Json(v)
    ensures v.Number? ==> r == NumberText(v.n)
  {
    match v
    case Null => Text("None")
    case Undefined => Text("None")
    case Bool(b) => if b then Text("Yes") else Text("No")
    case Object(_) => Json(v)
    case Array(_) => Json(v)
    case Number(n) => NumberText(n)
    case Str(s) => Text(s)
  }

  /** A string is shown as itself, so the strings "None", "Yes" and "No" look like null and the booleans. */
  lemma RenderedTextIsAmbiguous()
    ensures RenderPropertyValue(Str("None")) == RenderPropertyValue(Null) == RenderPropertyValue(Undefined)
    ensures RenderPropertyValue(Str("Yes")) == RenderPropertyValue(Bool(true))
    ensures RenderPropertyValue(Str("No")) == RenderPropertyValue(Bool(false))
  {
  }

  // ---------------------------------------------------------------------------
  // renderProperties
  // ---------------------------------------------------------------------------

  /** One displayed property: a list with its length, an object with its fields, or a single value. */
  datatype Row =
    | ListSection(title: string, count: nat, items: seq<JsValue>)
    | ObjectSection(title: string, fields: seq<(string, Rendered)>)
    | DetailRow(caption: string, value: Rendered)

  /** A value that gets a row: not null, not undefined, and not an empty array. */
  predicate HasContent(v: JsValue)
  {
    !v.Null? && !v.Undefined? && !(v.Array? && v.items == [])
  }

  /** The field an object entry is shown as: its label and its rendered value. */
  function Field(e: (string, JsValue)): (r: (string, Rendered))
  {
    (FormatPropertyName(e.0), RenderPropertyValue(e.1))
  }

  /** The fields of an object section: every entry except those whose value is `null` (`undefined` stays, shown as "None"). */
  function ObjectFields(entries: seq<(string, JsValue)>): (r: seq<(string, Rendered)>)
    ensures |r| <= |entries|
    decreases |entries|
  {
    if entries == [] then []
    else
      var last := entries[|entries| - 1];
      ObjectFields(entries[..|entries| - 1]) +
      (if last.1.Null? then [] else [Field(last)])
  }

  /** Only `null` fields are skipped: without them, every field is shown, labelled, in order. */
  lemma {:induction false} ObjectFieldsWithoutNull(entries: seq<(string, JsValue)>)
    requires forall k :: 0 <= k < |entries| ==> !entries[k].1.Null?
    ensures |ObjectFields(entries)| == |entries|
    ensures forall k :: 0 <= k < |entries| ==>
              ObjectFields(entries)[k] == (FormatPropertyName(entries[k].0), RenderPropertyValue(entries[k].1))
    decreases |entries|
  {
    if entries != [] {
      var init := entries[..|entries| - 1];
      ObjectFieldsWithoutNull(init);
      assert forall k :: 0 <= k < |init| ==> init[k] == entries[k];
    }
  }

  /** Which entries are not `null`. */
  function NonNull(entries: seq<(string, JsValue)>): (flags: seq<bool>)
    ensures |flags| == |entries|
    ensures forall i :: 0 <= i < |entries| ==> flags[i] == !entries[i].1.Null?
  {
    seq(|entries|, i requires 0 <= i < |entries| => !entries[i].1.Null?)
  }

  /**
   * The fields are exactly the non-null entries, labelled and rendered, in entry order: the
   * k-th field comes from the k-th non-null entry (`Positions` lists them all, increasing).
   */
  lemma {:induction false} ObjectFieldsMeaning(entries: seq<(string, JsValue)>)
    ensures |ObjectFields(entries)| == |Positions(NonNull(entries))|
    ensures forall k :: 0 <= k < |ObjectFields(entries)| ==>
              ObjectFields(entries)[k] == Field(entries[Positions(NonNull(entries))[k]])
    decreases |entries|
  {
    if entries != [] {
      var n := |entries| - 1;
      var init := entries[..n];
      ObjectFieldsMeaning(init);
      assert NonNull(entries)[..n] == NonNull(init);
      var before := Positions(NonNull(init));
      assert Positions(NonNull(entries)) == before + (if entries[n].1.Null? then [] else [n]);
      forall k | 0 <= k < |before| ensures entries[before[k]] == init[before[k]] {
      }
    }
  }

  /** The row `renderProperties` produces for one entry with content. */
  function RowOf(key: string, v: JsValue): (r: Row)
    requires HasContent(v)
  {
    match v
    case Array(items) => ListSection(FormatPropertyName(key), |items|, items)
    case Object(entries) => ObjectSection(FormatPropertyName(key), ObjectFields(entries))
    case _ => DetailRow(FormatPropertyName(key), RenderPropertyValue(v))
  }

  /**
   * `renderProperties`: nothing at all for absent properties; otherwise one slot per entry in
   * key order, empty for an entry without content.
   */
  function RenderProperties(properties: Option<seq<(string, JsValue)>>): (r: Option<seq<Option<Row>>>)
    ensures r.None? <==> properties.None?
    ensures r.Some? ==> |r.value| == |properties.value|
    ensures r.Some? ==> forall k :: 0 <= k < |r.value| ==> (r.value[k].Some? <==> HasContent(properties.value[k].1))
  {
    if properties.None? then None
    else
      var entries := properties.value;
      Some(seq(|entries|, k requires 0 <= k < |entries| =>
        if HasContent(entries[k].1) then Some(RowOf(entries[k].0, entries[k].1)) else None))
  }

  /** What is drawn of a list of slots: the rows, in order; an empty slot draws nothing. */
  function Drawn(slots: seq<Option<Row>>): (r: seq<Row>)
    ensures |r| <= |slots|
    decreases |slots|
  {
    if slots == [] then []
    else
      var last := slots[|slots| - 1];
      Drawn(slots[..|slots| - 1]) + (if last.Some? then [last.value] else [])
  }

  /** Which slots are filled. */
  function Filled(slots: seq<Option<Row>>): (flags: seq<bool>)
    ensures |flags| == |slots|
    ensures forall i :: 0 <= i < |slots| ==> flags[i] == slots[i].Some?
  {
    seq(|slots|, i requires 0 <= i < |slots| => slots[i].Some?)
  }

  /**
   * The drawn rows are the rows of exactly the filled slots, in slot order: the k-th row is
   * the k-th filled slot's (`Positions` lists them all, increasing).
   */
  lemma {:induction false} DrawnMeaning(slots: seq<Option<Row>>)
    ensures |Drawn(slots)| == |Positions(Filled(slots))|
    ensures forall k :: 0 <= k < |Drawn(slots)| ==> slots[Positions(Filled(slots))[k]] == Some(Drawn(slots)[k])
    decreases |slots|
  {
    if slots != [] {
      var n := |slots| - 1;
      var init := slots[..n];
      DrawnMeaning(init);
      assert Filled(slots)[..n] == Filled(init);
      var before := Positions(Filled(init));
      assert Positions(Filled(slots)) == before + (if slots[n].Some? then [n] else []);
      forall k | 0 <= k < |before| ensures slots[before[k]] == init[before[k]] {
      }
    }
  }

  /** The entries that have content, in key order. */
  function WithContent(entries: seq<(string, JsValue)>): (r: seq<(string, JsValue)>)
    ensures |r| <= |entries|
    ensures forall k :: 0 <= k < |r| ==> HasContent(r[k].1)
    decreases |entries|
  {
    if entries == [] then []
    else
      var last := entries[|entries| - 1];
      WithContent(entries[..|entries| - 1]) + (if HasContent(last.1) then [last] else [])
  }

  /** A row per entry. */
  function RowsOf(entries: seq<(string, JsValue)>): (r: seq<Row>)
    requires forall k :: 0 <= k < |entries| ==> HasContent(entries[k].1)
    ensures |r| == |entries|
    ensures forall k :: 0 <= k < |entries| ==> r[k] == RowOf(entries[k].0, entries[k].1)
  {
    seq(|entries|, k requires 0 <= k < |entries| => RowOf(entries[k].0, entries[k].1))
  }

  /** What is drawn is exactly one row per entry with content, in key order. */
  lemma {:induction false} DrawnRows(entries: seq<(string, JsValue)>)
    ensures Drawn(RenderProperties(Some(entries)).value) == RowsOf(WithContent(entries))
    decreases |entries|
  {
    if entries != [] {
      var n := |entries| - 1;
      var init := entries[..n];
      DrawnRows(init);
      var slots := RenderProperties(Some(entries)).value;
      assert slots[..n] == RenderProperties(Some(init)).value;
      var before := WithContent(init);
      if HasContent(entries[n].1) {
        assert WithContent(entries) == before + [entries[n]];
        assert RowsOf(before + [entries[n]]) == RowsOf(before) + [RowOf(entries[n].0, entries[n].1)];
      } else {
        assert WithContent(entries) == before;
      }
    }
  }

  /** Null, undefined and empty-array properties are never drawn. */
  lemma EmptyValuesDrawNothing(key: string, v: JsValue)
    requires v.Null? || v.Undefined? || v == Array([])
    ensures Drawn(RenderProperties(Some([(key, v)])).value) == []
  {
    var slots := RenderProperties(Some([(key, v)])).value;
    assert slots[..0] == [];
  }
}
