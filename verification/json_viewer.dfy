/**
 * The report viewer: a recursive renderer from a JSON value to a display
 * tree, driven by a map from bare member names to "expanded" flags that
 * clicks on member names toggle.
 */
module JsonViewer {
  import opened JsonValue

  /** The arrow in front of a member name: none, '▼' (expanded) or '►' (collapsed). */
  datatype Marker = NoMarker | ExpandedMarker | CollapsedMarker

  /** What a collapsed member shows instead of its value. */
  datatype Summary = ArraySummary(length: nat) | ObjectSummary(count: nat)

  /** The display tree the viewer renders. */
  datatype View =
    | NoData                   // the "No data available" placeholder
    | NullText                 // null
    | EmptyArrayText           // []
    | EmptyObjectText          // {}
    | StringText(s: string)    // "s", quoted, unescaped
    | NumberText(n: int)
    | BoolText(b: bool)
    | Stringified(item: Json)  // JSON.stringify of a scalar array element
    | Collapsed(summary: Summary)
    | Items(items: seq<Item>)  // array elements, each after its index
    | Members(rows: seq<Row>)  // object members, each after its quoted name

  /** One array element: `index:` followed by the element's rendering. */
  datatype Item = Item(index: nat, body: View)

  /** One object member: optional arrow, `"key":`, then the member's rendering. */
  datatype Row = Row(key: string, marker: Marker, body: View)

  /**
   * The names `expandedSections[key]` finds on `Object.prototype` when no
   * flag is stored under them: each reads as a function or as the
   * prototype itself, so each is truthy.
   */
  const InheritedNames: set<string> := {
    "constructor", "toString", "toLocaleString", "valueOf", "hasOwnProperty",
    "isPrototypeOf", "propertyIsEnumerable", "__proto__",
    "__defineGetter__", "__defineSetter__", "__lookupGetter__", "__lookupSetter__"
  }

  /**
   * `expandedSections[key]` read as a condition: the stored flag when there
   * is one; otherwise `undefined` (not expanded), except for a name inherited
   * from `Object.prototype`, which reads as truthy (expanded).
   */
  predicate IsExpanded(expanded: map<string, bool>, key: string) {
    if key in expanded then expanded[key] else key in InheritedNames
  }

  /** `{...prev, [key]: !prev[key]}` */
  function Toggled(expanded: map<string, bool>, key: string): map<string, bool> {
    expanded[key := !IsExpanded(expanded, key)]
  }

  /** The summary a collapsed container shows. */
  function SummaryOf(c: Json): Summary
    requires IsContainer(c)
  {
    if c.JArr? then ArraySummary(|c.items|) else ObjectSummary(|ObjectKeys(c)|)
  }

  /** The text of a summary: `[Array(n)]` or `{Object: n properties}`. */
  function SummaryText(s: Summary): string {
    match s
    case ArraySummary(n) => "[Array(" + DecimalString(n) + ")]"
    case ObjectSummary(n) => "{Object: " + DecimalString(n) + " properties}"
  }

  /** `formatValue` on a value that is not an array or object. */
  function FormatScalar(v: Json): View
    requires !IsContainer(v)
  {
    match v
    case JNull => NullText
    case JStr(s) => StringText(s)
    case JNum(n) => NumberText(n)
    case JBool(b) => BoolText(b)
  }

  /** `formatValue`: render any value. */
  function FormatValue(v: Json, expanded: map<string, bool>): View
    decreases v, 2
  {
    match v
    case JArr(items) =>
      if |items| == 0 then EmptyArrayText
      else Items(seq(|items|, i requires 0 <= i < |items| =>
        Item(i, if IsContainer(items[i]) then FormatObject(items[i], expanded) else Stringified(items[i]))))
    case JObj(_) => FormatObject(v, expanded)
    case _ => FormatScalar(v)
  }

  /** `formatObject`: render the members `Object.keys` lists, in that order. */
  function FormatObject(v: Json, expanded: map<string, bool>): View
    decreases v, 1
  {
    if Falsy(v) then NullText
    else if ObjectKeys(v) == [] then EmptyObjectText
    else Members(MemberRows(v, expanded))
  }

  /** One row per key of `Object.keys(v)`, in key order. */
  function MemberRows(v: Json, expanded: map<string, bool>): (rows: seq<Row>)
    ensures |rows| == |ObjectKeys(v)|
    ensures forall i :: 0 <= i < |rows| ==> rows[i].key == ObjectKeys(v)[i]
    decreases v, 0
  {
    match v
    case JObj(ms) => seq(|ms|, i requires 0 <= i < |ms| => RenderMember(ms[i].0, ms[i].1, expanded))
    case JArr(items) => seq(|items|, i requires 0 <= i < |items| => RenderMember(DecimalString(i), items[i], expanded))
    case JStr(s) => seq(|s|, i requires 0 <= i < |s| => ScalarRow(DecimalString(i), JStr([s[i]])))
    case _ => []
  }

  /** The row of a member whose value is a scalar: no arrow, the value's rendering. */
  function ScalarRow(key: string, value: Json): Row
    requires !IsContainer(value)
  {
    Row(key, NoMarker, FormatScalar(value))
  }

  /** The row of member `key`: a container is collapsed to its summary until its flag is set. */
  function RenderMember(key: string, value: Json, expanded: map<string, bool>): Row
    decreases value, 3
  {
    if IsContainer(value) then
      if IsExpanded(expanded, key) then Row(key, ExpandedMarker, FormatValue(value, expanded))
      else Row(key, CollapsedMarker, Collapsed(SummaryOf(value)))
    else ScalarRow(key, value)
  }

  /** The whole viewer: the placeholder for falsy data, otherwise `formatObject(data)`. */
  function Render(data: Json, expanded: map<string, bool>): View {
    if Falsy(data) then NoData else FormatObject(data, expanded)
  }

  /** `r` is a member row somewhere in `v`, at any depth. */
  ghost predicate Occurs(r: Row, v: View) {
    match v
    case Members(rows) => exists i :: 0 <= i < |rows| && (rows[i] == r || Occurs(r, rows[i].body))
    case Items(items) => exists i :: 0 <= i < |items| && Occurs(r, items[i].body)
    case _ => false
  }

  /** The rendering of a scalar value. */
  predicate IsScalarText(v: View) {
    v.NullText? || v.StringText? || v.NumberText? || v.BoolText?
  }

  /**
   * How a row relates to the flags: a row without an arrow shows a scalar;
   * a row with an arrow shows '▼' and its value exactly when the flag of its
   * bare name is set, and its summary otherwise.
   */
  ghost predicate FollowsFlags(r: Row, expanded: map<string, bool>) {
    match r.marker
    case NoMarker => IsScalarText(r.body)
    case ExpandedMarker => IsExpanded(expanded, r.key) && !r.body.Collapsed?
    case CollapsedMarker => !IsExpanded(expanded, r.key) && r.body.Collapsed?
  }

  lemma {:induction false} ValueRowsFollowFlags(v: Json, expanded: map<string, bool>, r: Row)
    requires Occurs(r, FormatValue(v, expanded))
    ensures FollowsFlags(r, expanded)
    ensures exists value :: r == RenderMember(r.key, value, expanded)
    decreases v, 2
  {
    match v
    case JArr(items) =>
      var its := FormatValue(v, expanded).items;
      var i :| 0 <= i < |its| && Occurs(r, its[i].body);
      ObjectRowsFollowFlags(items[i], expanded, r);
    case JObj(_) =>
      ObjectRowsFollowFlags(v, expanded, r);
  }

  lemma {:induction false} ObjectRowsFollowFlags(v: Json, expanded: map<string, bool>, r: Row)
    requires Occurs(r, FormatObject(v, expanded))
    ensures FollowsFlags(r, expanded)
    ensures exists value :: r == RenderMember(r.key, value, expanded)
    decreases v, 1
  {
    var rows := MemberRows(v, expanded);
    var i :| 0 <= i < |rows| && (rows[i] == r || Occurs(r, rows[i].body));
    match v
    case JObj(ms) =>
      MemberRowFollowsFlags(ms[i].0, ms[i].1, expanded, r);
    case JArr(items) =>
      MemberRowFollowsFlags(DecimalString(i), items[i], expanded, r);
    case JStr(s) =>
      assert r == RenderMember(r.key, JStr([s[i]]), expanded);
  }

  lemma {:induction false} MemberRowFollowsFlags(key: string, value: Json, expanded: map<string, bool>, r: Row)
    requires r == RenderMember(key, value, expanded) || Occurs(r, RenderMember(key, value, expanded).body)
    ensures FollowsFlags(r, expanded)
    ensures exists w :: r == RenderMember(r.key, w, expanded)
    decreases value, 3
  {
    if r != RenderMember(key, value, expanded) {
      ValueRowsFollowFlags(value, expanded, r);
    } else {
      if IsContainer(value) && IsExpanded(expanded, key) && value.JObj? {
        assert FormatValue(value, expanded) == FormatObject(value, expanded);
      }
      assert r == RenderMember(r.key, value, expanded);
    }
  }

  /**
   * Every member row the viewer shows, at any depth, is `renderMember` of
   * its own name and some value, so it carries an arrow exactly when that
   * value is an array or object; and it is expanded exactly when its bare
   * name reads as truthy in the flag map.
   */
  lemma RenderFollowsFlags(data: Json, expanded: map<string, bool>, r: Row)
    requires Occurs(r, Render(data, expanded))
    ensures FollowsFlags(r, expanded)
    ensures exists value :: r == RenderMember(r.key, value, expanded)
  {
    ObjectRowsFollowFlags(data, expanded, r);
  }

  /** Flags are keyed by bare name: two container members with the same name, at any depths, expand and collapse together. */
  lemma SameNameRowsAgree(data: Json, expanded: map<string, bool>, r1: Row, r2: Row)
    requires Occurs(r1, Render(data, expanded)) && Occurs(r2, Render(data, expanded))
    requires r1.key == r2.key && r1.marker != NoMarker && r2.marker != NoMarker
    ensures r1.marker == r2.marker
    ensures r1.body.Collapsed? <==> r2.body.Collapsed?
  {
    RenderFollowsFlags(data, expanded, r1);
    RenderFollowsFlags(data, expanded, r2);
  }

  /** After toggling `key`, every container row named `key` flips and every other row keeps its state. */
  lemma ToggleFlipsSameNameRows(data: Json, expanded: map<string, bool>, key: string, r: Row)
    requires Occurs(r, Render(data, Toggled(expanded, key)))
    requires r.marker != NoMarker
    ensures r.marker == ExpandedMarker <==>
            (if r.key == key then !IsExpanded(expanded, key) else IsExpanded(expanded, r.key))
  {
    RenderFollowsFlags(data, Toggled(expanded, key), r);
  }

  /**
   * With no flag set, as when the viewer is first shown, every container
   * member at every depth is collapsed, except one whose name is inherited
   * from `Object.prototype`, which starts expanded.
   */
  lemma InitiallyCollapsed(data: Json, r: Row)
    requires Occurs(r, Render(data, map[]))
    requires r.marker != NoMarker
    ensures r.key !in InheritedNames ==> r.marker == CollapsedMarker && r.body.Collapsed?
    ensures r.key in InheritedNames ==> r.marker == ExpandedMarker && !r.body.Collapsed?
  {
    RenderFollowsFlags(data, map[], r);
  }

  /** Falsy data, and only falsy data, renders as the bare "No data available" placeholder. */
  lemma RenderPlaceholder(data: Json, expanded: map<string, bool>)
    ensures Render(data, expanded) == NoData <==> Falsy(data)
  {
  }

  /** Toggling stores the negation of what `key` reads as and keeps every other entry. */
  lemma ToggleFlipsOnlyKey(expanded: map<string, bool>, key: string)
    ensures key in Toggled(expanded, key) && Toggled(expanded, key)[key] == !IsExpanded(expanded, key)
    ensures forall k :: k != key ==> (k in Toggled(expanded, key) <==> k in expanded)
    ensures forall k :: k != key && k in expanded ==> Toggled(expanded, key)[k] == expanded[k]
  {
  }

  /**
   * Toggling the same key twice restores its truthiness; an absent key ends
   * up stored as false, or as true when its name is inherited from
   * `Object.prototype` (the first click then collapses it).
   */
  lemma ToggleTwice(expanded: map<string, bool>, key: string)
    ensures IsExpanded(Toggled(Toggled(expanded, key), key), key) == IsExpanded(expanded, key)
    ensures Toggled(Toggled(expanded, key), key) == expanded[key := IsExpanded(expanded, key)]
    ensures key !in expanded && key !in InheritedNames ==>
              Toggled(expanded, key)[key] && !Toggled(Toggled(expanded, key), key)[key]
    ensures key !in expanded && key in InheritedNames ==>
              !Toggled(expanded, key)[key] && Toggled(Toggled(expanded, key), key)[key]
  {
  }

  /** Null renders `null`, an empty array value `[]`, an empty object `{}`. */
  lemma EmptyValueTexts(expanded: map<string, bool>)
    ensures FormatValue(JNull, expanded) == NullText
    ensures FormatValue(JArr([]), expanded) == EmptyArrayText
    ensures FormatValue(JObj([]), expanded) == EmptyObjectText
  {
  }

  /**
   * A collapsed member shows `[Array(n)]` or `{Object: n properties}`, and n
   * is exactly the number of entries the member shows once expanded (and
   * n = 0 exactly when the expansion is `[]` or `{}`).
   */
  lemma CollapsedCountMatchesExpanded(key: string, value: Json, expanded: map<string, bool>)
    requires IsContainer(value)
    ensures var row := RenderMember(key, value, expanded[key := false]);
            row.marker == CollapsedMarker && row.body.Collapsed?
    ensures var s := RenderMember(key, value, expanded[key := false]).body.summary;
            var open := RenderMember(key, value, expanded[key := true]).body;
            match value
            case JArr(items) =>
              && SummaryText(s) == "[Array(" + DecimalString(|items|) + ")]"
              && (if |items| == 0 then open == EmptyArrayText else open.Items? && |open.items| == |items|)
            case JObj(ms) =>
              && SummaryText(s) == "{Object: " + DecimalString(|ms|) + " properties}"
              && (if |ms| == 0 then open == EmptyObjectText else open.Members? && |open.rows| == |ms|)
  {
    var on := expanded[key := true];
    assert IsExpanded(on, key);
    if value.JObj? {
      assert FormatValue(value, on) == FormatObject(value, on);
      assert |ObjectKeys(value)| == |value.members|;
    }
  }

  /** An object's members are rendered in key order, each by its own name and value. */
  lemma MembersInKeyOrder(ms: seq<(string, Json)>, expanded: map<string, bool>, i: nat)
    requires 0 <= i < |ms|
    ensures FormatObject(JObj(ms), expanded).Members?
    ensures |FormatObject(JObj(ms), expanded).rows| == |ms|
    ensures FormatObject(JObj(ms), expanded).rows[i] == RenderMember(ms[i].0, ms[i].1, expanded)
  {
    assert ObjectKeys(JObj(ms))[0] == ms[0].0;
  }

  /**
   * Array elements are prefixed by their index and never collapsed: a
   * scalar element is stringified, and an array or object element goes
   * straight to `formatObject`, so an empty array element shows `{}`.
   */
  lemma ArrayElementRendering(items: seq<Json>, expanded: map<string, bool>, i: nat)
    requires 0 <= i < |items|
    ensures FormatValue(JArr(items), expanded).Items?
    ensures var item := FormatValue(JArr(items), expanded).items[i];
            && item.index == i
            && !item.body.Collapsed?
            && (!IsContainer(items[i]) ==> item.body == Stringified(items[i]))
            && (items[i] == JArr([]) ==> item.body == EmptyObjectText)
  {
  }

  /**
   * A non-empty array nested directly in an array is shown as members named
   * "0", "1", ... (its `Object.keys`), and those names are distinct.
   */
  lemma NestedArrayElementKeys(items: seq<Json>, expanded: map<string, bool>, i: nat)
    requires 0 <= i < |items| && items[i].JArr? && |items[i].items| > 0
    ensures FormatValue(JArr(items), expanded).Items?
    ensures var body := FormatValue(JArr(items), expanded).items[i].body;
            && body.Members?
            && |body.rows| == |items[i].items|
            && (forall j :: 0 <= j < |body.rows| ==> body.rows[j].key == DecimalString(j))
            && (forall j, k :: 0 <= j < k < |body.rows| ==> body.rows[j].key != body.rows[k].key)
  {
    var body := FormatObject(items[i], expanded);
    assert ObjectKeys(items[i])[0] == DecimalString(0);
    forall j, k | 0 <= j < k < |body.rows|
      ensures body.rows[j].key != body.rows[k].key
    {
      DecimalStringInjective(j, k);
    }
  }

  /**
   * The viewer component: its only state is the map from member names to
   * "expanded" flags; the data comes in as a parameter.
   */
  class Viewer {
    var expanded: map<string, bool>

    /** `useState({})` */
    constructor ()
      ensures expanded == map[]
    {
      expanded := map[];
    }

    /** `toggleSection(key)` */
    method ToggleSection(key: string)
      modifies this
      ensures expanded == Toggled(old(expanded), key)
    {
      expanded := expanded[key := !IsExpanded(expanded, key)];
    }

    /** A click on the name of a member holding `value`: only a container member toggles. */
    method ClickMemberName(key: string, value: Json)
      modifies this
      ensures IsContainer(value) ==> expanded == Toggled(old(expanded), key)
      ensures !IsContainer(value) ==> expanded == old(expanded)
    {
      if IsContainer(value) {
        ToggleSection(key);
      }
    }
  }
}
