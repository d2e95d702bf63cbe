/**
 * The embed URL: the base path `{apiUrl}/api/embed/{harnessIdOrToken}` and
 * the query parameters that the factory and `update` set on a fresh URL, one
 * conditional `searchParams.set` per serialised option, in a fixed order.
 *
 * Percent-encoding and the rendering of the URL as text belong to the host's
 * URL library and are not modelled: a URL is its base string and its list of
 * parameters.
 */
module EmbedQuery {
  import opened EmbedOptions

  /** The nine options that can appear in the query, in the order they are set. */
  datatype Key =
    | CanvasColor | ShowGrid | GridColor | ShowBOM | BomPosition
    | ShowTitle | Title | Interactive | ControlsPosition

  datatype Param = Param(key: Key, value: string)

  datatype EmbedUrl = EmbedUrl(base: string, params: seq<Param>)

  /** The parameter name as it appears in the query string. */
  function Name(k: Key): string
  {
    match k
    case CanvasColor => "canvasColor"
    case ShowGrid => "showGrid"
    case GridColor => "gridColor"
    case ShowBOM => "showBOM"
    case BomPosition => "bomPosition"
    case ShowTitle => "showTitle"
    case Title => "title"
    case Interactive => "interactive"
    case ControlsPosition => "controlsPosition"
  }

  /** The position of a key's `set` call among the nine. */
  function Rank(k: Key): nat
  {
    match k
    case CanvasColor => 0
    case ShowGrid => 1
    case GridColor => 2
    case ShowBOM => 3
    case BomPosition => 4
    case ShowTitle => 5
    case Title => 6
    case Interactive => 7
    case ControlsPosition => 8
  }

  /** `String(b)` for a boolean. */
  function BoolText(b: bool): string
  {
    if b then "true" else "false"
  }

  /** JavaScript truthiness of an optional string: present and not `""`. */
  predicate Truthy(v: Option<string>)
  {
    v.Some? && v.value != ""
  }

  function BomText(v: Option<BomSide>): Option<string>
  {
    if v.Some? then Some(BomSideText(v.value)) else None
  }

  function CornerText(v: Option<ControlsCorner>): Option<string>
  {
    if v.Some? then Some(ControlsCornerText(v.value)) else None
  }

  // ---------------------------------------------------------------------
  // The builder, one conditional `set` per key
  // ---------------------------------------------------------------------

  /** `if (options.x) set(x, options.x)`: strings and enums are set when truthy. */
  function TextParam(k: Key, v: Option<string>): seq<Param>
  {
    if Truthy(v) then [Param(k, v.value)] else []
  }

  /** `if (options.x !== undefined) set(x, String(options.x))`. */
  function FlagParam(k: Key, v: Option<bool>): seq<Param>
  {
    if v.Some? then [Param(k, BoolText(v.value))] else []
  }

  /** The parameters set on the fresh URL, in the order of the `set` calls. */
  function Query(o: Options): seq<Param>
  {
    TextParam(CanvasColor, o.canvasColor)
    + FlagParam(ShowGrid, o.showGrid)
    + TextParam(GridColor, o.gridColor)
    + FlagParam(ShowBOM, o.showBOM)
    + TextParam(BomPosition, BomText(o.bomPosition))
    + FlagParam(ShowTitle, o.showTitle)
    + TextParam(Title, o.title)
    + FlagParam(Interactive, o.interactive)
    + TextParam(ControlsPosition, CornerText(o.controlsPosition))
  }

  function BasePath(apiUrl: string, harnessRef: string): string
  {
    apiUrl + "/api/embed/" + harnessRef
  }

  /** The embed URL for a resolved base and the current options. */
  function BuildUrl(apiUrl: string, harnessRef: string, o: Options): EmbedUrl
  {
    EmbedUrl(BasePath(apiUrl, harnessRef), Query(o))
  }

  // ---------------------------------------------------------------------
  // The rule the builder follows, stated key by key
  // ---------------------------------------------------------------------

  /** The value of the option behind a key, as a string-like or a boolean field. */
  datatype FieldValue = Text(text: Option<string>) | Flag(flag: Option<bool>)

  function FieldOf(o: Options, k: Key): FieldValue
  {
    match k
    case CanvasColor => Text(o.canvasColor)
    case ShowGrid => Flag(o.showGrid)
    case GridColor => Text(o.gridColor)
    case ShowBOM => Flag(o.showBOM)
    case BomPosition => Text(BomText(o.bomPosition))
    case ShowTitle => Flag(o.showTitle)
    case Title => Text(o.title)
    case Interactive => Flag(o.interactive)
    case ControlsPosition => Text(CornerText(o.controlsPosition))
  }

  /**
   * The serialisation rule: a string-like field is sent verbatim when it is
   * truthy (so `""` is dropped); a boolean field is sent as "true" or "false"
   * whenever it is defined.
   */
  function Serialise(v: FieldValue): Option<string>
  {
    match v
    case Text(t) => if t.Some? && t.value != "" then t else None
    case Flag(f) => if f.Some? then Some(BoolText(f.value)) else None
  }

  /** The value the query must carry for a key, if any. */
  function Expected(o: Options, k: Key): Option<string>
  {
    Serialise(FieldOf(o, k))
  }

  /** The value of the first parameter named by `k`, as `searchParams.get` reads it. */
  function Lookup(ps: seq<Param>, k: Key): Option<string>
  {
    if ps == [] then None
    else if ps[0].key == k then Some(ps[0].value)
    else Lookup(ps[1..], k)
  }

  /** Keys strictly in the order of the `set` calls; so none repeats. */
  predicate Ascending(ps: seq<Param>)
  {
    forall i, j :: 0 <= i < j < |ps| ==> Rank(ps[i].key) < Rank(ps[j].key)
  }

  /** Does the patch mention the option behind `k`? */
  predicate Mentions(p: Patch, k: Key)
  {
    match k
    case CanvasColor => p.canvasColor.Some?
    case ShowGrid => p.showGrid.Some?
    case GridColor => p.gridColor.Some?
    case ShowBOM => p.showBOM.Some?
    case BomPosition => p.bomPosition.Some?
    case ShowTitle => p.showTitle.Some?
    case Title => p.title.Some?
    case Interactive => p.interactive.Some?
    case ControlsPosition => p.controlsPosition.Some?
  }

  // ---------------------------------------------------------------------
  // Lemmas
  // ---------------------------------------------------------------------

  /** Distinct keys have distinct ranks and distinct wire names. */
  lemma KeysDistinct(a: Key, b: Key)
    ensures Rank(a) == Rank(b) ==> a == b
    ensures Name(a) == Name(b) ==> a == b
  {
  }

  lemma {:induction false} LookupAppend(ps: seq<Param>, qs: seq<Param>, k: Key)
    ensures Lookup(ps + qs, k) == if Lookup(ps, k).Some? then Lookup(ps, k) else Lookup(qs, k)
  {
    if ps == [] {
      assert ps + qs == qs;
    } else {
      assert (ps + qs)[1..] == ps[1..] + qs;
      LookupAppend(ps[1..], qs, k);
    }
  }

  lemma {:induction false} LookupAbsent(ps: seq<Param>, k: Key)
    requires forall i :: 0 <= i < |ps| ==> ps[i].key != k
    ensures Lookup(ps, k) == None
  {
    if ps != [] {
      LookupAbsent(ps[1..], k);
    }
  }

  /** A key found in an ascending list ranks no lower than its first key. */
  lemma {:induction false} LookupRank(ps: seq<Param>, k: Key)
    requires Ascending(ps) && Lookup(ps, k).Some?
    ensures ps != [] && Rank(ps[0].key) <= Rank(k)
  {
    if ps[0].key != k {
      LookupRank(ps[1..], k);
      assert ps[1..][0] == ps[1];
    }
  }

  /**
   * An ascending parameter list is determined by what `Lookup` finds in it:
   * two such lists that agree on every key are equal.
   */
  lemma {:induction false} AscendingDeterminedByLookup(ps: seq<Param>, qs: seq<Param>)
    requires Ascending(ps) && Ascending(qs)
    requires forall k :: Lookup(ps, k) == Lookup(qs, k)
    ensures ps == qs
    decreases |ps|
  {
    if ps == [] {
      LookupFirst(qs);
    } else if qs == [] {
      LookupFirst(ps);
    } else {
      var a, b := ps[0].key, qs[0].key;
      LookupFirst(ps);
      LookupFirst(qs);
      LookupRank(ps, b);
      LookupRank(qs, a);
      KeysDistinct(a, b);
      assert a == b && ps[0] == qs[0];
      LookupAbsent(ps[1..], a);
      LookupAbsent(qs[1..], a);
      forall k
        ensures Lookup(ps[1..], k) == Lookup(qs[1..], k)
      {
        if k != a {
          assert Lookup(ps, k) == Lookup(ps[1..], k);
          assert Lookup(qs, k) == Lookup(qs[1..], k);
        }
      }
      AscendingDeterminedByLookup(ps[1..], qs[1..]);
      assert ps == [ps[0]] + ps[1..];
      assert qs == [qs[0]] + qs[1..];
    }
  }

  lemma LookupFirst(ps: seq<Param>)
    ensures ps != [] ==> Lookup(ps, ps[0].key) == Some(ps[0].value)
  {
  }

  /** The key whose `set` call comes at position `r`. */
  function KeyAt(r: nat): (k: Key)
    requires r < 9
    ensures Rank(k) == r
  {
    [CanvasColor, ShowGrid, GridColor, ShowBOM, BomPosition,
     ShowTitle, Title, Interactive, ControlsPosition][r]
  }

  /** What the `set` call for one key contributes. */
  function Segment(o: Options, k: Key): seq<Param>
  {
    match k
    case CanvasColor => TextParam(CanvasColor, o.canvasColor)
    case ShowGrid => FlagParam(ShowGrid, o.showGrid)
    case GridColor => TextParam(GridColor, o.gridColor)
    case ShowBOM => FlagParam(ShowBOM, o.showBOM)
    case BomPosition => TextParam(BomPosition, BomText(o.bomPosition))
    case ShowTitle => FlagParam(ShowTitle, o.showTitle)
    case Title => TextParam(Title, o.title)
    case Interactive => FlagParam(Interactive, o.interactive)
    case ControlsPosition => TextParam(ControlsPosition, CornerText(o.controlsPosition))
  }

  /** The parameters set by the first `n` of the nine `set` calls. */
  function Upto(o: Options, n: nat): seq<Param>
    requires n <= 9
  {
    if n == 0 then [] else Upto(o, n - 1) + Segment(o, KeyAt(n - 1))
  }

  lemma QueryIsUpto(o: Options)
    ensures Query(o) == Upto(o, 9)
  {
    assert Upto(o, 1) == Segment(o, CanvasColor);
    assert Upto(o, 2) == Upto(o, 1) + Segment(o, ShowGrid);
    assert Upto(o, 3) == Upto(o, 2) + Segment(o, GridColor);
    assert Upto(o, 4) == Upto(o, 3) + Segment(o, ShowBOM);
    assert Upto(o, 5) == Upto(o, 4) + Segment(o, BomPosition);
    assert Upto(o, 6) == Upto(o, 5) + Segment(o, ShowTitle);
    assert Upto(o, 7) == Upto(o, 6) + Segment(o, Title);
    assert Upto(o, 8) == Upto(o, 7) + Segment(o, Interactive);
    assert Upto(o, 9) == Upto(o, 8) + Segment(o, ControlsPosition);
  }

  /** Each `set` call follows the serialisation rule for its own key. */
  lemma SegmentRule(o: Options, k: Key)
    ensures Segment(o, k) == if Expected(o, k).Some? then [Param(k, Expected(o, k).value)] else []
  {
  }

  lemma {:induction false} UptoLookup(o: Options, n: nat, k: Key)
    requires n <= 9
    ensures Lookup(Upto(o, n), k) == if Rank(k) < n then Expected(o, k) else None
  {
    if n > 0 {
      UptoLookup(o, n - 1, k);
      LookupAppend(Upto(o, n - 1), Segment(o, KeyAt(n - 1)), k);
      SegmentRule(o, KeyAt(n - 1));
      KeysDistinct(k, KeyAt(n - 1));
    }
  }

  lemma {:induction false} UptoAscending(o: Options, n: nat)
    requires n <= 9
    ensures Ascending(Upto(o, n))
    ensures forall i :: 0 <= i < |Upto(o, n)| ==> Rank(Upto(o, n)[i].key) < n
  {
    if n > 0 {
      UptoAscending(o, n - 1);
      SegmentRule(o, KeyAt(n - 1));
    }
  }

  /**
   * Presence and value: the query carries a parameter for `k` exactly when
   * the serialisation rule says so, with the value the rule gives.
   */
  lemma QueryLookup(o: Options, k: Key)
    ensures Lookup(Query(o), k) == Expected(o, k)
  {
    QueryIsUpto(o);
    UptoLookup(o, 9, k);
  }

  /**
   * The parameters come in the order canvasColor, showGrid, gridColor,
   * showBOM, bomPosition, showTitle, title, interactive, controlsPosition,
   * and none appears twice.
   */
  lemma QueryAscending(o: Options)
    ensures Ascending(Query(o))
    ensures forall i, j :: 0 <= i < j < |Query(o)| ==> Query(o)[i].key != Query(o)[j].key
  {
    QueryIsUpto(o);
    UptoAscending(o, 9);
  }

  /**
   * The query is the one and only list that follows the fixed order and
   * carries exactly the parameters the serialisation rule asks for.
   */
  lemma QueryCharacterised(o: Options, ps: seq<Param>)
    ensures ps == Query(o) <==> Ascending(ps) && forall k :: Lookup(ps, k) == Expected(o, k)
  {
    QueryAscending(o);
    forall k
      ensures Lookup(Query(o), k) == Expected(o, k)
    {
      QueryLookup(o, k);
    }
    if Ascending(ps) && forall k :: Lookup(ps, k) == Expected(o, k) {
      AscendingDeterminedByLookup(ps, Query(o));
    }
  }

  /**
   * Only the nine serialised fields matter: `apiUrl`, `width`, `height`,
   * `zoom`, `styles` and the callbacks never reach the query.
   */
  lemma QueryIgnoresOtherFields(o: Options, o': Options)
    requires forall k :: FieldOf(o, k) == FieldOf(o', k)
    ensures Query(o) == Query(o')
  {
    QueryCharacterised(o', Query(o'));
    QueryCharacterised(o, Query(o'));
  }

  /**
   * After `Object.assign(options, p)` the rebuilt query keeps the old
   * parameter for every key `p` does not mention, and for a key `p` does
   * mention the parameter depends on `p` alone.
   */
  lemma MergeParam(o: Options, o': Options, p: Patch, k: Key)
    ensures !Mentions(p, k) ==> Lookup(Query(Merge(o, p)), k) == Lookup(Query(o), k)
    ensures Mentions(p, k) ==> Lookup(Query(Merge(o, p)), k) == Lookup(Query(Merge(o', p)), k)
  {
    QueryLookup(o, k);
    QueryLookup(Merge(o, p), k);
    QueryLookup(Merge(o', p), k);
  }

  /** `update({})` rebuilds exactly the URL built at creation. */
  lemma UpdateEmptyRebuildsSameUrl(apiUrl: string, harnessRef: string, o: Options)
    ensures BuildUrl(apiUrl, harnessRef, Merge(o, EmptyPatch)) == BuildUrl(apiUrl, harnessRef, o)
  {
  }

  /**
   * `update({gridColor: '#ff0000'})` followed by `update({showGrid: true})`:
   * the second update keeps the grid colour in the rebuilt query.
   */
  lemma GridColorSurvivesLaterUpdate(o: Options)
    ensures var o1 := Merge(o, EmptyPatch.(gridColor := Some(Some("#ff0000"))));
            var o2 := Merge(o1, EmptyPatch.(showGrid := Some(Some(true))));
            Lookup(Query(o2), GridColor) == Some("#ff0000")
            && Lookup(Query(o2), ShowGrid) == Some("true")
  {
    var o1 := Merge(o, EmptyPatch.(gridColor := Some(Some("#ff0000"))));
    var o2 := Merge(o1, EmptyPatch.(showGrid := Some(Some(true))));
    QueryLookup(o2, GridColor);
    QueryLookup(o2, ShowGrid);
  }
}
