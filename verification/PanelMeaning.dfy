/** Hoisting preserves meaning: the generated row function draws what "the first widget that covers a
    pixel wins" says. */
module PanelMeaning {
  import opened PanelCompiler

  // --- What a panel means -------------------------------------------------------------------

  /** A position as the language describes it, or nothing where the token is refused: distances from an edge
      point inwards, `end` needs a width, and what would lie off the canvas lies at its edge. */
  function Where(l: Lib, c: Ctx, tw: int, tok: Token, axis: Axis, size: Option<Size>): Option<int> {
    var room := if axis == X then c.w else c.h;
    match tok
    case Malformed => None
    case At(n) => Some(n)
    case Rel(kind, sign, n) =>
      match kind
      case Left => if sign == Minus then None else Some(n)
      case Top => if sign == Minus then None else Some(n)
      case Right => if sign == Plus && n > 0 then None else Some(if n <= room then room - n else 0)
      case Bottom => if sign == Plus && n > 0 then None else Some(if n <= room then room - n else 0)
      case End =>
        if axis == Y || size == None || (sign == Plus && n > 0) then None
        else
          var run := WidthOf(l, tw, size.value) + n;
          Some(if run <= room then room - run else 0)
      case Center =>
        var centre := CentreOf(l, c, tw, axis, size);
        Some(if sign == Minus then (if centre < n then 0 else centre - n) else centre + n)
  }

  function WidthOf(l: Lib, tw: int, size: Size): int { match size case RunWidth => tw case IconWidth(icon) => l.iconW(icon) }

  /** A centred position before its shift: half of the room left over, 2 where a run is too wide for the
      canvas, and half of the canvas where there is nothing to centre. */
  function CentreOf(l: Lib, c: Ctx, tw: int, axis: Axis, size: Option<Size>): int {
    if axis == Y then c.h / 2
    else if size == None then c.w / 2
    else if WidthOf(l, tw, size.value) >= c.w then 2
    else (c.w - WidthOf(l, tw, size.value)) / 2
  }

  function Pos(l: Lib, c: Ctx, tw: int, tok: Token, axis: Axis, size: Option<Size>): int {
    var p := Where(l, c, tw, tok, axis, size);
    if p == None then 0 else p.value
  }

  /** `when:` asks the value table itself. */
  predicate Shown(c: Ctx, when: When) {
    match when
    case If(key, Eq, lit) => c.val(key) == lit
    case If(key, Ne, lit) => c.val(key) != lit
    case _ => true
  }

  /** The string a text shows: prefix, value, suffix. */
  function TextOf(l: Lib, c: Ctx, src: Source): string {
    match src
    case Lit(t) => t
    case Val(key) => c.val(key)
    case Joined(pre, inner, suf) => l.join(pre, TextOf(l, c, inner), suf)
  }

  /** A coverage level in a widget's ramp of colours. */
  function Shade(ramp: int, level: Option<int>): Option<int> { match level case None => None case Some(v) => Some(v + ramp) }

  /** The canvas's own outermost pixels. */
  predicate Rim(c: Ctx, x: int, y: int) { x == 0 || x + 1 == c.w || y == 0 || y + 1 == c.h }

  /** The index a widget gives a pixel, if it covers it. */
  function Cover(l: Lib, c: Ctx, w: Widget, x: int, y: int): Option<int> {
    match w
    case Border(color) => if Rim(c, x, y) then Some(color) else None
    case Lambda(_, f) => f(c, x, y)
    case Text(tx, ty, font, ramp, when, src) =>
      var s := TextOf(l, c, src);
      if Shown(c, when)
      then Shade(ramp, l.glyph(font, s, x, y, Pos(l, c, l.width(font, s), tx, X, Some(RunWidth)), Pos(l, c, 0, ty, Y, None)))
      else None
    case Icon(tx, ty, icon, ramp, when) =>
      if Shown(c, when)
      then Shade(ramp, l.ink(icon, x, y, Pos(l, c, 0, tx, X, Some(IconWidth(icon))), Pos(l, c, 0, ty, Y, None)))
      else None
  }

  function Meaning(l: Lib, c: Ctx, bg: int, ws: seq<Widget>, x: int, y: int): int {
    if ws == [] then bg
    else if Cover(l, c, ws[0], x, y) != None then Cover(l, c, ws[0], x, y).value
    else Meaning(l, c, bg, ws[1..], x, y)
  }

  // --- Conditions ---------------------------------------------------------------------------

  /** Ink stays within the font's line height and four pixels past the run, or the icon's own box. */
  predicate InkAt(l: Lib, font: string, s: string, x: int, y: int, ox: int, oy: int) {
    l.glyph(font, s, x, y, ox, oy) != None ==> oy <= y < oy + l.lh(font) && ox <= x < ox + l.width(font, s) + 4
  }

  predicate IconInkAt(l: Lib, icon: string, x: int, y: int, ix: int, iy: int) {
    l.ink(icon, x, y, ix, iy) != None ==> iy <= y < iy + l.iconH(icon) && ix <= x < ix + l.iconW(icon)
  }

  ghost predicate InkInside(l: Lib) {
    && (forall font, s, x, y, ox, oy :: InkAt(l, font, s, x, y, ox, oy))
    && (forall icon, x, y, ix, iy :: IconInkAt(l, icon, x, y, ix, iy))
  }

  /** No two of the keys a program's conditions read share an identifier. */
  predicate Distinct(keys: seq<string>) {
    forall i, j | 0 <= i < |keys| && 0 <= j < |keys| :: Ident(keys[i]) == Ident(keys[j]) ==> keys[i] == keys[j]
  }

  predicate HoistedRight(keys: seq<string>, val: string -> string, key: string) {
    Hoisted(keys, val, Ident(key)) == val(key)
  }

  ghost predicate AlwaysRight(keys: seq<string>) {
    forall val: string -> string, k | 0 <= k < |keys| :: HoistedRight(keys, val, keys[k])
  }

  lemma {:induction false} HoistedIsSome(keys: seq<string>, val: string -> string, id: string, j: int)
    requires 0 <= j < |keys| && Ident(keys[j]) == id
    ensures exists i | 0 <= i < |keys| :: Ident(keys[i]) == id && Hoisted(keys, val, id) == val(keys[i])
    decreases |keys|
  {
    var last := |keys| - 1;
    if Ident(keys[last]) == id {
      assert Hoisted(keys, val, id) == val(keys[last]);
    } else {
      HoistedIsSome(keys[..last], val, id, j);
    }
  }

  /** WHEN HOISTING IS RIGHT: the per-row locals hold the values of their keys, whatever the values, exactly
      when no two keys become the same identifier. */
  lemma HoistingExactly(keys: seq<string>)
    ensures Distinct(keys) <==> AlwaysRight(keys)
  {
    if Distinct(keys) {
      forall val: string -> string, k | 0 <= k < |keys|
        ensures HoistedRight(keys, val, keys[k])
      {
        HoistedIsSome(keys, val, Ident(keys[k]), k);
      }
    }
    if AlwaysRight(keys) {
      forall i, j | 0 <= i < |keys| && 0 <= j < |keys| && Ident(keys[i]) == Ident(keys[j])
        ensures keys[i] == keys[j]
      {
        var same := (s: string) => s;
        assert HoistedRight(keys, same, keys[i]) && HoistedRight(keys, same, keys[j]);
      }
    }
  }

  /** Two keys that differ only in punctuation do become the same identifier. */
  lemma KeysCanClash()
    ensures Ident("a-b") == Ident("a_b") && !Distinct(["a-b", "a_b"])
  {
    assert Cleaned("a-b") == ['a'] + Cleaned("-b");
    assert Cleaned("-b") == ['_'] + Cleaned("b");
    assert Cleaned("a_b") == ['a'] + Cleaned("_b");
    assert Cleaned("_b") == ['_'] + Cleaned("b");
    var keys := ["a-b", "a_b"];
    assert Ident(keys[0]) == Ident(keys[1]) && keys[0] != keys[1];
  }

  // --- What the compiler emits --------------------------------------------------------------

  predicate Gated(w: Widget) { w.Text? || w.Icon? }

  /** The prologue statement of a text or icon. */
  function ProOf(d: Doc, k: nat): Pro
    requires k < |d.widgets| && Gated(d.widgets[k])
  {
    match d.widgets[k]
    case Text(x, y, font, _, when, src) =>
      var oy, ox := Anchor(y, Y, None), Anchor(x, X, Some(RunWidth));
      ProText(k, if oy.Ok? then oy.value else Const(0), if ox.Ok? then ox.value else Const(0), font, GuardOf(when), src)
    case Icon(x, y, icon, _, when) =>
      var iy, ix := Anchor(y, Y, None), Anchor(x, X, Some(IconWidth(icon)));
      ProIcon(k, if iy.Ok? then iy.value else Const(0), if ix.Ok? then ix.value else Const(0), icon, GuardOf(when))
  }

  function PxOf(d: Doc, k: nat): Px
    requires k < |d.widgets|
  {
    match d.widgets[k]
    case Border(color) => PxBorder(color)
    case Lambda(_, f) => PxLambda(f)
    case Text(_, _, font, ramp, _, _) => PxText(k, font, ramp)
    case Icon(_, _, icon, ramp, _) => PxIcon(k, icon, ramp)
  }

  predicate Placeable(w: Widget) {
    match w
    case Text(x, y, _, _, when, _) => Anchor(x, X, Some(RunWidth)).Ok? && Anchor(y, Y, None).Ok? && !when.Unparsable?
    case Icon(x, y, icon, _, when) => Anchor(x, X, Some(IconWidth(icon))).Ok? && Anchor(y, Y, None).Ok? && !when.Unparsable?
    case _ => true
  }

  function WhenOf(w: Widget): When { if w.Text? || w.Icon? then w.when else Always }

  ghost predicate PxAt(d: Doc, code: Code, k: nat) { k < |d.widgets| && k < |code.px| && code.px[k] == PxOf(d, k) && Placeable(d.widgets[k]) }

  predicate KeyRead(d: Doc, code: Code, k: nat) {
    k < |d.widgets| && (WhenOf(d.widgets[k]).If? ==> WhenOf(d.widgets[k]).key in code.keys)
  }

  predicate IsGate(d: Doc, code: Code, k: nat) { k < |d.widgets| && (k in code.gates <==> Gated(d.widgets[k])) }

  /** The code of the first n widgets has their pixel statements, their gates and the keys they read. */
  ghost predicate Emitted(d: Doc, code: Code, n: nat) {
    && n <= |d.widgets| && |code.px| == n
    && (forall k | 0 <= k < n :: PxAt(d, code, k) && KeyRead(d, code, k) && IsGate(d, code, k))
    && (forall k | 0 <= k < |code.gates| :: code.gates[k] < n)
  }

  lemma Emit1Emits(d: Doc, code: Code, k: nat)
    requires k < |d.widgets| && Emitted(d, code, k) && Emit1(d, code, k, d.widgets[k]).Ok?
    ensures Emitted(d, Emit1(d, code, k, d.widgets[k]).value, k + 1)
  {
    var code' := Emit1(d, code, k, d.widgets[k]).value;
    forall j | 0 <= j < k + 1
      ensures PxAt(d, code', j) && KeyRead(d, code', j) && IsGate(d, code', j)
    {
      if j < k { assert PxAt(d, code, j) && KeyRead(d, code, j) && IsGate(d, code, j); }
    }
  }

  lemma {:induction false} EmitEmits(d: Doc, n: nat)
    requires n <= |d.widgets| && Emit(d, n).Ok?
    ensures Emitted(d, Emit(d, n).value, n)
  {
    if n > 0 {
      EmitEmits(d, n - 1);
      Emit1Emits(d, Emit(d, n - 1).value, n - 1);
    }
  }

  /** After the prologue every text and icon finds its own locals. */
  ghost predicate LocalAt(l: Lib, d: Doc, vals: string -> string, c: Ctx, y: int, locals: map<nat, Local>, k: nat) {
    k < |d.widgets| && (Gated(d.widgets[k]) ==> k in locals && locals[k] == ProLocal(l, vals, c, y, ProOf(d, k)))
  }

  ghost predicate LeavesScope(row: RowCode, c: Ctx, y: int, s: Scope) { row(c, y, s) == s }

  /** A lambda's row code rebinds nothing that the compiler has bound. */
  ghost predicate Hygienic(w: Widget) {
    w.Lambda? && w.row.Some? ==> forall c, y, s :: LeavesScope(w.row.value, c, y, s)
  }

  ghost predicate AllHygienic(d: Doc) { forall k | 0 <= k < |d.widgets| :: Hygienic(d.widgets[k]) }

  /** The prologue of the first n + 1 widgets runs that of the first n, and then the last one's statement. */
  lemma ProGrows(l: Lib, d: Doc, c: Ctx, y: int, s: Scope, n: nat)
    requires n < |d.widgets| && Emit(d, n + 1).Ok?
    ensures Emit(d, n).Ok?
    ensures var before, w := RunPro(l, c, y, s, Emit(d, n).value.pro), d.widgets[n];
            RunPro(l, c, y, s, Emit(d, n + 1).value.pro)
            == (if Gated(w) then ProNext(l, c, y, before, ProOf(d, n))
                else if w.Lambda? && w.row.Some? then w.row.value(c, y, before) else before)
  {
    var before, after := Emit(d, n).value.pro, Emit(d, n + 1).value.pro;
    if |after| > |before| { assert after[..|after| - 1] == before; }
  }

  /** The first n widgets' locals are in scope, and the hoisted values are as they were. */
  ghost predicate Landed(l: Lib, d: Doc, vals: string -> string, c: Ctx, y: int, s: Scope, n: nat) {
    s.vals == vals && forall k | 0 <= k < n :: LocalAt(l, d, vals, c, y, s.locals, k)
  }

  lemma GatedLands(l: Lib, d: Doc, vals: string -> string, c: Ctx, y: int, s: Scope, n: nat)
    requires n < |d.widgets| && Landed(l, d, vals, c, y, s, n) && Gated(d.widgets[n])
    ensures Landed(l, d, vals, c, y, ProNext(l, c, y, s, ProOf(d, n)), n + 1)
  {
    var after := ProNext(l, c, y, s, ProOf(d, n));
    forall k | 0 <= k < n + 1
      ensures LocalAt(l, d, vals, c, y, after.locals, k)
    {
      if k < n { assert LocalAt(l, d, vals, c, y, s.locals, k); }
    }
  }

  lemma OtherLands(l: Lib, d: Doc, vals: string -> string, c: Ctx, y: int, s: Scope, n: nat)
    requires n < |d.widgets| && Landed(l, d, vals, c, y, s, n) && !Gated(d.widgets[n])
    ensures Landed(l, d, vals, c, y, s, n + 1)
  {
    assert LocalAt(l, d, vals, c, y, s.locals, n);
  }

  lemma NextLands(l: Lib, d: Doc, vals: string -> string, c: Ctx, y: int, before: Scope, after: Scope, n: nat)
    requires n < |d.widgets| && Landed(l, d, vals, c, y, before, n) && Hygienic(d.widgets[n])
    requires var w := d.widgets[n];
             after == (if Gated(w) then ProNext(l, c, y, before, ProOf(d, n))
                       else if w.Lambda? && w.row.Some? then w.row.value(c, y, before) else before)
    ensures Landed(l, d, vals, c, y, after, n + 1)
  {
    var w := d.widgets[n];
    if Gated(w) {
      GatedLands(l, d, vals, c, y, before, n);
    } else {
      if w.Lambda? && w.row.Some? { assert LeavesScope(w.row.value, c, y, before); }
      OtherLands(l, d, vals, c, y, before, n);
    }
  }

  lemma {:induction false} LocalsLand(l: Lib, d: Doc, c: Ctx, y: int, s: Scope, n: nat)
    requires n <= |d.widgets| && Emit(d, n).Ok? && AllHygienic(d)
    ensures Landed(l, d, s.vals, c, y, RunPro(l, c, y, s, Emit(d, n).value.pro), n)
  {
    if n > 0 {
      assert Hygienic(d.widgets[n - 1]);
      ProGrows(l, d, c, y, s, n - 1);
      LocalsLand(l, d, c, y, s, n - 1);
      var before, after := RunPro(l, c, y, s, Emit(d, n - 1).value.pro), RunPro(l, c, y, s, Emit(d, n).value.pro);
      NextLands(l, d, s.vals, c, y, before, after, n - 1);
    }
  }

  // --- Pixel by pixel -----------------------------------------------------------------------

  lemma GuardIsShown(code: Code, c: Ctx, when: When)
    requires Distinct(code.keys) && !when.Unparsable? && (when.If? ==> when.key in code.keys)
    ensures Passes(Hoist(code.keys, c).vals, GuardOf(when)) == Shown(c, when)
  {
    if when.If? {
      var k :| 0 <= k < |code.keys| && code.keys[k] == when.key;
      HoistingExactly(code.keys);
      assert HoistedRight(code.keys, c.val, code.keys[k]);
    }
  }

  /** A closed gate means the widget covers nothing on this row. */
  predicate Faithful(l: Lib, d: Doc, code: Code, c: Ctx, y: int, locals: map<nat, Local>, k: nat, x: int) {
    && k < |d.widgets| && Bound(locals, PxOf(d, k))
    && PxValue(l, c, locals, PxOf(d, k), x, y) == Cover(l, c, d.widgets[k], x, y)
    && (Gated(d.widgets[k]) && k in locals && !locals[k].g ==> Cover(l, c, d.widgets[k], x, y) == None)
  }

  lemma {:induction false} TextIsStr(l: Lib, c: Ctx, src: Source)
    ensures TextOf(l, c, src) == Str(l, c, src)
  {
    if src.Joined? { TextIsStr(l, c, src.inner); }
  }

  lemma TextFaithful(l: Lib, d: Doc, code: Code, c: Ctx, y: int, locals: map<nat, Local>, k: nat, x: int)
    requires InkInside(l) && Distinct(code.keys) && k < |d.widgets| && d.widgets[k].Text? && Placeable(d.widgets[k])
    requires KeyRead(d, code, k) && LocalAt(l, d, Hoist(code.keys, c).vals, c, y, locals, k)
    ensures Faithful(l, d, code, c, y, locals, k, x)
  {
    var w := d.widgets[k];
    GuardIsShown(code, c, w.when);
    TextIsStr(l, c, w.src);
    var s := Str(l, c, w.src);
    PositionsMean(l, c, l.width(w.font, s), w.x, X, Some(RunWidth));
    PositionsMean(l, c, 0, w.y, Y, None);
    assert InkAt(l, w.font, s, x, y, Pos(l, c, l.width(w.font, s), w.x, X, Some(RunWidth)), Pos(l, c, 0, w.y, Y, None));
  }

  lemma IconFaithful(l: Lib, d: Doc, code: Code, c: Ctx, y: int, locals: map<nat, Local>, k: nat, x: int)
    requires InkInside(l) && Distinct(code.keys) && k < |d.widgets| && d.widgets[k].Icon? && Placeable(d.widgets[k])
    requires KeyRead(d, code, k) && LocalAt(l, d, Hoist(code.keys, c).vals, c, y, locals, k)
    ensures Faithful(l, d, code, c, y, locals, k, x)
  {
    var w := d.widgets[k];
    GuardIsShown(code, c, w.when);
    PositionsMean(l, c, 0, w.x, X, Some(IconWidth(w.icon)));
    PositionsMean(l, c, 0, w.y, Y, None);
    assert IconInkAt(l, w.icon, x, y, Pos(l, c, 0, w.x, X, Some(IconWidth(w.icon))), Pos(l, c, 0, w.y, Y, None));
  }

  lemma WidgetFaithful(l: Lib, d: Doc, code: Code, c: Ctx, y: int, locals: map<nat, Local>, k: nat, x: int)
    requires InkInside(l) && Distinct(code.keys) && k < |d.widgets| && Placeable(d.widgets[k])
    requires KeyRead(d, code, k) && LocalAt(l, d, Hoist(code.keys, c).vals, c, y, locals, k)
    ensures Faithful(l, d, code, c, y, locals, k, x)
  {
    if d.widgets[k].Text? { TextFaithful(l, d, code, c, y, locals, k, x); }
    else if d.widgets[k].Icon? { IconFaithful(l, d, code, c, y, locals, k, x); }
  }

  lemma {:induction false} BodyIsMeaning(l: Lib, d: Doc, code: Code, c: Ctx, y: int, locals: map<nat, Local>, k: nat, x: int)
    requires |code.px| == |d.widgets| && k <= |d.widgets|
    requires forall j | k <= j < |d.widgets| :: code.px[j] == PxOf(d, j) && Faithful(l, d, code, c, y, locals, j, x)
    ensures forall j | 0 <= j < |code.px| - k :: Bound(locals, code.px[k..][j])
    ensures Body(l, c, d.bg, locals, code.px[k..], x, y) == Meaning(l, c, d.bg, d.widgets[k..], x, y)
    decreases |d.widgets| - k
  {
    if k < |d.widgets| {
      assert Faithful(l, d, code, c, y, locals, k, x);
      BodyIsMeaning(l, d, code, c, y, locals, k + 1, x);
      assert code.px[k..][1..] == code.px[k + 1..] && d.widgets[k..][1..] == d.widgets[k + 1..];
    }
  }

  lemma {:induction false} NothingCovers(l: Lib, c: Ctx, bg: int, ws: seq<Widget>, x: int, y: int)
    requires forall k | 0 <= k < |ws| :: Cover(l, c, ws[k], x, y) == None
    ensures Meaning(l, c, bg, ws, x, y) == bg
  {
    if ws != [] { NothingCovers(l, c, bg, ws[1..], x, y); }
  }

  /** A whole row may be skipped: if no gate is open, nothing on it is covered. */
  lemma SkippedRowIsEmpty(l: Lib, d: Doc, code: Code, c: Ctx, y: int, locals: map<nat, Local>, x: int)
    requires Emitted(d, code, |d.widgets|) && !Catchall(d)
    requires forall k | 0 <= k < |d.widgets| :: Faithful(l, d, code, c, y, locals, k, x)
    requires forall k | 0 <= k < |code.gates| :: code.gates[k] in locals && !locals[code.gates[k]].g
    ensures Meaning(l, c, d.bg, d.widgets, x, y) == d.bg
  {
    forall k | 0 <= k < |d.widgets|
      ensures Cover(l, c, d.widgets[k], x, y) == None
    {
      assert Faithful(l, d, code, c, y, locals, k, x) && IsGate(d, code, k);
      assert Gated(d.widgets[k]);
      var j :| 0 <= j < |code.gates| && code.gates[j] == k;
      assert !locals[code.gates[j]].g;
    }
    NothingCovers(l, c, d.bg, d.widgets, x, y);
  }

  lemma AllFaithful(l: Lib, d: Doc, c: Ctx, y: int, x: int)
    requires InkInside(l) && AllHygienic(d) && Emit(d, |d.widgets|).Ok? && Distinct(Emit(d, |d.widgets|).value.keys)
    ensures var code := Emit(d, |d.widgets|).value;
            forall k | 0 <= k < |d.widgets| :: Faithful(l, d, code, c, y, LocalsOf(l, code, c, y), k, x)
  {
    var code := Emit(d, |d.widgets|).value;
    EmitEmits(d, |d.widgets|);
    LocalsLand(l, d, c, y, Hoist(code.keys, c), |d.widgets|);
    forall k | 0 <= k < |d.widgets|
      ensures Faithful(l, d, code, c, y, LocalsOf(l, code, c, y), k, x)
    {
      assert PxAt(d, code, k) && KeyRead(d, code, k) && LocalAt(l, d, Hoist(code.keys, c).vals, c, y, LocalsOf(l, code, c, y), k);
      WidgetFaithful(l, d, code, c, y, LocalsOf(l, code, c, y), k, x);
    }
  }

  lemma CodeRuns(l: Lib, d: Doc, c: Ctx, y: int)
    requires AllHygienic(d) && Emit(d, |d.widgets|).Ok?
    ensures Runs(l, Emit(d, |d.widgets|).value, c, y)
  {
    var code := Emit(d, |d.widgets|).value;
    EmitEmits(d, |d.widgets|);
    LocalsLand(l, d, c, y, Hoist(code.keys, c), |d.widgets|);
    var locals := LocalsOf(l, code, c, y);
    forall k | 0 <= k < |code.px|
      ensures Bound(locals, code.px[k])
    {
      assert PxAt(d, code, k) && LocalAt(l, d, Hoist(code.keys, c).vals, c, y, locals, k);
    }
    forall k | 0 <= k < |code.gates|
      ensures code.gates[k] in locals
    {
      assert IsGate(d, code, code.gates[k]) && LocalAt(l, d, Hoist(code.keys, c).vals, c, y, locals, code.gates[k]);
    }
  }

  lemma WalkedPixel(l: Lib, d: Doc, code: Code, c: Ctx, y: int, locals: map<nat, Local>, x: int)
    requires Emitted(d, code, |d.widgets|)
    requires forall k | 0 <= k < |d.widgets| :: Faithful(l, d, code, c, y, locals, k, x)
    ensures forall j | 0 <= j < |code.px| :: Bound(locals, code.px[j])
    ensures Body(l, c, d.bg, locals, code.px, x, y) == Meaning(l, c, d.bg, d.widgets, x, y)
  {
    forall j | 0 <= j < |d.widgets|
      ensures code.px[j] == PxOf(d, j) && Faithful(l, d, code, c, y, locals, j, x)
    {
      assert PxAt(d, code, j);
    }
    BodyIsMeaning(l, d, code, c, y, locals, 0, x);
    assert code.px[0..] == code.px && d.widgets[0..] == d.widgets;
  }

  lemma RowPixel(l: Lib, d: Doc, code: Code, c: Ctx, y: int, locals: map<nat, Local>, x: int)
    requires Emitted(d, code, |d.widgets|) && (forall k | 0 <= k < |code.gates| :: code.gates[k] in locals)
    requires forall k | 0 <= k < |d.widgets| :: Faithful(l, d, code, c, y, locals, k, x)
    ensures forall j | 0 <= j < |code.px| :: Bound(locals, code.px[j])
    ensures Meaning(l, c, d.bg, d.widgets, x, y)
         == (if Skips(code, Catchall(d), locals) then d.bg else Body(l, c, d.bg, locals, code.px, x, y))
  {
    WalkedPixel(l, d, code, c, y, locals, x);
    if Skips(code, Catchall(d), locals) { SkippedRowIsEmpty(l, d, code, c, y, locals, x); }
  }

  /** A row filled from faithful locals is the meaning, pixel for pixel. */
  lemma FilledPixel(l: Lib, d: Doc, code: Code, c: Ctx, y: int, locals: map<nat, Local>, x0: int, n: nat, i: nat, x: int)
    requires Emitted(d, code, |d.widgets|) && AllBound(code, locals) && i < n && x == x0 + i
    requires forall k | 0 <= k < |d.widgets| :: Faithful(l, d, code, c, y, locals, k, x)
    ensures FillRow(l, code, locals, Catchall(d), d.bg, c, y, x0, n)[i] == Meaning(l, c, d.bg, d.widgets, x, y)
  {
    RowPixel(l, d, code, c, y, locals, x);
  }

  /** HOISTING PRESERVES MEANING. For every panel that compiles, every canvas, every table of values and
      every stretch of a row, the generated function gives each pixel the index of the first widget that
      covers it, or the background; provided ink stays in the boxes the compiler tests, no two condition keys
      share an identifier, and no lambda's row code rebinds what the compiler has bound. */
  lemma HoistingPreservesMeaning(l: Lib, d: Doc, code: Code, c: Ctx, y: int, x0: int, n: nat, i: nat)
    requires InkInside(l) && AllHygienic(d) && Emit(d, |d.widgets|) == Ok(code) && Distinct(code.keys) && i < n
    ensures Runs(l, code, c, y)
    ensures RenderRow(l, code, Catchall(d), d.bg, c, y, x0, n)[i] == Meaning(l, c, d.bg, d.widgets, x0 + i, y)
  {
    CodeRuns(l, d, c, y);
    EmitEmits(d, |d.widgets|);
    AllFaithful(l, d, c, y, x0 + i);
    FilledPixel(l, d, code, c, y, LocalsOf(l, code, c, y), x0, n, i, x0 + i);
  }

  // --- Row code that rebinds ----------------------------------------------------------------

  /** Row code that shuts every gate opened before it. */
  function Shut(c: Ctx, y: int, s: Scope): Scope { s.(locals := map k | k in s.locals :: s.locals[k].(g := false)) }

  /** An icon at the origin, and a lambda that draws nothing but brings such row code. */
  function ShutDoc(): Doc {
    Doc([Icon(At(0), At(0), "i", 0, Always), Lambda(Some(Shut), (c, x, y) => None)], {}, {"i"}, 9)
  }

  /** Assets with icons of one pixel, and no font. */
  function OneDot(): Lib {
    Lib(font => 0, (font, s) => 0, (a, b, c) => b, (font, s, x, y, ox, oy) => None,
        icon => 1, icon => 1, (icon, x, y, ix, iy) => if x == ix && y == iy then Some(5) else None)
  }

  lemma ShutEmits()
    ensures Emit(ShutDoc(), 2)
         == Ok(Code([ProIcon(0, Const(0), Const(0), "i", NoGuard), ProLambda(Shut)],
                    [PxIcon(0, "i", 0), PxLambda(ShutDoc().widgets[1].code)], [0], []))
  {
    var d := ShutDoc();
    assert Emit(d, 0) == Ok(Code([], [], [], []));
    assert Emit(d, 1) == Emit1(d, Code([], [], [], []), 0, d.widgets[0]);
    var one := Emit(d, 1).value;
    assert one == Code([ProIcon(0, Const(0), Const(0), "i", NoGuard)], [PxIcon(0, "i", 0)], [0], []);
    assert Emit(d, 2) == Emit1(d, one, 1, d.widgets[1]);
    assert one.pro + [ProLambda(Shut)] == [one.pro[0], ProLambda(Shut)];
    assert one.px + [PxLambda(d.widgets[1].code)] == [one.px[0], PxLambda(d.widgets[1].code)];
  }

  lemma ShutLocals(code: Code, c: Ctx)
    requires Emit(ShutDoc(), 2) == Ok(code)
    ensures LocalsOf(OneDot(), code, c, 0) == map[0 := Local(false, "", 0, 1, 0)]
  {
    ShutEmits();
    var l, s := OneDot(), Hoist(code.keys, c);
    assert code.pro[..1][..0] == [] && code.pro[..1] == [code.pro[0]];
    assert RunPro(l, c, 0, s, code.pro[..1]) == ProNext(l, c, 0, s, code.pro[0]);
    assert ProLocal(l, s.vals, c, 0, code.pro[0]) == Local(true, "", 0, 1, 0);
  }

  /** THE CASE. Row code in scope of the compiler's names can undo an earlier widget: the icon covers the pixel
      with index 5, and the generated row shows the background, 9. */
  lemma RowCodeCanHide(c: Ctx, code: Code)
    requires Emit(ShutDoc(), 2) == Ok(code)
    ensures InkInside(OneDot()) && Distinct(code.keys) && Runs(OneDot(), code, c, 0)
    ensures Meaning(OneDot(), c, 9, ShutDoc().widgets, 0, 0) == 5
    ensures RenderRow(OneDot(), code, Catchall(ShutDoc()), 9, c, 0, 0, 1)[0] == 9
  {
    ShutEmits();
    ShutLocals(code, c);
    var l, d := OneDot(), ShutDoc();
    assert d.widgets[1].Lambda?;
    assert Cover(l, c, d.widgets[0], 0, 0) == Some(5);
    var locals := LocalsOf(l, code, c, 0);
    assert PxValue(l, c, locals, code.px[0], 0, 0) == None && PxValue(l, c, locals, code.px[1], 0, 0) == None;
    assert code.px[1..] == [code.px[1]] && code.px[1..][1..] == [];
    assert Body(l, c, 9, locals, code.px[1..], 0, 0) == 9;
    assert Body(l, c, 9, locals, code.px, 0, 0) == 9;
  }

  // --- What the gates say -------------------------------------------------------------------

  /** Widget k's locals in row y: open exactly in its band while its condition holds, and then with its string and
      the columns it may ink. */
  predicate GateSays(l: Lib, c: Ctx, y: int, w: Widget, v: Local) {
    match w
    case Text(tx, ty, font, ramp, when, src) =>
      var top, s := Pos(l, c, 0, ty, Y, None), TextOf(l, c, src);
      var left := Pos(l, c, l.width(font, s), tx, X, Some(RunWidth));
      && (v.g <==> top <= y < top + l.lh(font) && Shown(c, when)) && v.top == top
      && (v.g ==> v.s == s && v.o == left && v.e == left + l.width(font, s) + 4)
      && (!v.g ==> v.o == v.e)
    case Icon(ix, iy, icon, ramp, when) =>
      var top, left := Pos(l, c, 0, iy, Y, None), Pos(l, c, 0, ix, X, Some(IconWidth(icon)));
      && (v.g <==> top <= y < top + l.iconH(icon) && Shown(c, when)) && v.top == top
      && v.o == left && v.e == left + l.iconW(icon)
    case _ => true
  }

  lemma LocalSays(l: Lib, d: Doc, code: Code, c: Ctx, y: int, locals: map<nat, Local>, k: nat)
    requires Distinct(code.keys) && k < |d.widgets| && Placeable(d.widgets[k]) && Gated(d.widgets[k])
    requires KeyRead(d, code, k) && LocalAt(l, d, Hoist(code.keys, c).vals, c, y, locals, k)
    ensures k in locals && GateSays(l, c, y, d.widgets[k], locals[k])
  {
    var w := d.widgets[k];
    GuardIsShown(code, c, w.when);
    if w.Text? {
      TextIsStr(l, c, w.src);
      PositionsMean(l, c, l.width(w.font, Str(l, c, w.src)), w.x, X, Some(RunWidth));
      PositionsMean(l, c, 0, w.y, Y, None);
    } else {
      PositionsMean(l, c, 0, w.x, X, Some(IconWidth(w.icon)));
      PositionsMean(l, c, 0, w.y, Y, None);
    }
  }

  /** GATES ARE BANDS: in every row, a text's or icon's gate is open exactly when the row is in its band and its
      condition holds, so that nothing else of it is looked at in the pixel loop. */
  lemma GatesAreBands(l: Lib, d: Doc, code: Code, c: Ctx, y: int, k: nat)
    requires AllHygienic(d) && Emit(d, |d.widgets|) == Ok(code) && Distinct(code.keys) && k < |d.widgets| && Gated(d.widgets[k])
    ensures var locals := LocalsOf(l, code, c, y); k in locals && GateSays(l, c, y, d.widgets[k], locals[k])
  {
    EmitEmits(d, |d.widgets|);
    LocalsLand(l, d, c, y, Hoist(code.keys, c), |d.widgets|);
    assert PxAt(d, code, k) && KeyRead(d, code, k);
    assert LocalAt(l, d, Hoist(code.keys, c).vals, c, y, LocalsOf(l, code, c, y), k);
    LocalSays(l, d, code, c, y, LocalsOf(l, code, c, y), k);
  }

  // --- Names --------------------------------------------------------------------------------

  predicate Numeral(ch: char) { ch in "0123456789" }

  predicate Letter(ch: char) { 'A' <= ch <= 'Z' || 'a' <= ch <= 'z' }

  /** What becomes of one character of a name. */
  function Kept(ch: char): char { if Numeral(ch) || Letter(ch) then ch else '_' }

  lemma NumeralIsDigit(ch: char)
    ensures Numeral(ch) <==> Digit(ch)
  {
    var d := "0123456789";
    if Digit(ch) { assert d[ch as int - '0' as int] == ch; }
  }

  lemma {:induction false} CleanedKeeps(name: string, k: nat)
    requires k < |name|
    ensures |Cleaned(name)| == |name| && Cleaned(name)[k] == Kept(name[k])
  {
    NumeralIsDigit(name[0]);
    CleanedIsWord(name);
    if k > 0 { CleanedKeeps(name[1..], k - 1); }
  }

  /** WHAT A NAME BECOMES: letters and digits stay, anything else turns into an underscore, and a name that is
      empty or begins with a digit gets a prefix: so it never begins with one, and is never empty. */
  lemma IdentSays(name: string)
    ensures var id, odd := Ident(name), name == "" || Numeral(name[0]);
            && |id| == |name| + (if odd then 2 else 0) && (odd ==> id[..2] == "p_")
            && (forall k | 0 <= k < |name| :: id[|id| - |name| + k] == Kept(name[k]))
            && id != "" && !Numeral(id[0])
  {
    CleanedIsWord(name);
    forall k | 0 <= k < |name|
      ensures Cleaned(name)[k] == Kept(name[k])
    {
      CleanedKeeps(name, k);
    }
    if name != "" {
      NumeralIsDigit(name[0]);
      NumeralIsDigit(Cleaned(name)[0]);
    }
  }

  // --- Whole programs -----------------------------------------------------------------------

  predicate OnCanvas(c: Ctx, x: int, y: int) { 0 <= x < c.w && 0 <= y < c.h }

  /** One of the four neighbours lies off the canvas. */
  predicate AtEdge(c: Ctx, x: int, y: int) {
    !OnCanvas(c, x - 1, y) || !OnCanvas(c, x + 1, y) || !OnCanvas(c, x, y - 1) || !OnCanvas(c, x, y + 1)
  }

  /** A BORDER GOES ALL THE WAY ROUND. In a panel whose first widget is a border, a pixel of the canvas with a
      neighbour off the canvas has the border's colour; any other is what the rest of the panel makes it. */
  lemma BorderGoesRound(l: Lib, d: Doc, code: Code, c: Ctx, y: int, x0: int, n: nat, i: nat, color: int)
    requires InkInside(l) && AllHygienic(d) && Emit(d, |d.widgets|) == Ok(code) && Distinct(code.keys) && i < n
    requires d.widgets != [] && d.widgets[0] == Border(color) && OnCanvas(c, x0 + i, y)
    ensures Runs(l, code, c, y)
    ensures RenderRow(l, code, Catchall(d), d.bg, c, y, x0, n)[i]
         == if AtEdge(c, x0 + i, y) then color else Meaning(l, c, d.bg, d.widgets[1..], x0 + i, y)
  {
    HoistingPreservesMeaning(l, d, code, c, y, x0, n, i);
  }

  /** A border alone: its colour on the edge, the background elsewhere. */
  lemma BorderAlone(l: Lib, d: Doc, code: Code, c: Ctx, y: int, x0: int, n: nat, i: nat, color: int)
    requires InkInside(l) && Emit(d, |d.widgets|) == Ok(code) && Distinct(code.keys) && i < n
    requires d.widgets == [Border(color)] && color != d.bg && OnCanvas(c, x0 + i, y)
    ensures Runs(l, code, c, y)
    ensures RenderRow(l, code, Catchall(d), d.bg, c, y, x0, n)[i] == color <==> AtEdge(c, x0 + i, y)
  {
    BorderGoesRound(l, d, code, c, y, x0, n, i, color);
  }

  /** AN ICON UNDER A CONDITION: drawn where its ink is, in its own colours, exactly while the value is (or is
      not) the literal. */
  lemma IconAlone(l: Lib, d: Doc, code: Code, c: Ctx, y: int, x0: int, n: nat, i: nat, ix: nat, iy: nat, icon: string, ramp: int,
                  key: string, op: Op, lit: string)
    requires InkInside(l) && Emit(d, |d.widgets|) == Ok(code) && Distinct(code.keys) && i < n
    requires d.widgets == [Icon(At(ix), At(iy), icon, ramp, If(key, op, lit))]
    ensures Runs(l, code, c, y)
    ensures var pixel, ink := RenderRow(l, code, Catchall(d), d.bg, c, y, x0, n)[i], l.ink(icon, x0 + i, y, ix, iy);
            pixel == if (c.val(key) == lit) == (op == Eq) && ink.Some? then ramp + ink.value else d.bg
  {
    HoistingPreservesMeaning(l, d, code, c, y, x0, n, i);
    assert d.widgets[1..] == [];
  }

  /** A TEXT AROUND A VALUE: prefix, value and suffix in this order. */
  lemma TextAlone(l: Lib, d: Doc, code: Code, c: Ctx, y: int, x0: int, n: nat, i: nat, tx: nat, ty: nat, font: string, ramp: int,
                  pre: string, key: string, suf: string)
    requires InkInside(l) && Emit(d, |d.widgets|) == Ok(code) && Distinct(code.keys) && i < n
    requires d.widgets == [Text(At(tx), At(ty), font, ramp, Always, Joined(pre, Val(key), suf))]
    ensures Runs(l, code, c, y)
    ensures var pixel, ink := RenderRow(l, code, Catchall(d), d.bg, c, y, x0, n)[i],
                              l.glyph(font, l.join(pre, c.val(key), suf), x0 + i, y, tx, ty);
            pixel == if ink.Some? then ramp + ink.value else d.bg
  {
    HoistingPreservesMeaning(l, d, code, c, y, x0, n, i);
    assert d.widgets[1..] == [];
    assert TextOf(l, c, Val(key)) == c.val(key);
  }

  // --- Positions ----------------------------------------------------------------------------

  /** The margins on either side of a centred run differ by one at most. */
  lemma CentredEvenly(l: Lib, c: Ctx, tw: int, size: Size)
    requires WidthOf(l, tw, size) < c.w
    ensures var p := CentreOf(l, c, tw, X, Some(size)); 0 <= (c.w - WidthOf(l, tw, size) - p) - p <= 1
  {
  }

  lemma EndMeans(l: Lib, c: Ctx, tw: int, tok: Token, axis: Axis, size: Option<Size>)
    requires tok.Rel? && tok.kind == End && Anchor(tok, axis, size).Ok?
    ensures Where(l, c, tw, tok, axis, size) == Some(Eval(l, c, tw, Anchor(tok, axis, size).value))
  {
    var run := Plus2(SizeOf(size.value), Const(tok.n));
    assert Eval(l, c, tw, run) == SizeIs(l, tw, size.value) + tok.n;
    assert Anchor(tok, axis, size).value == SatSub(Dim(axis), run);
  }

  lemma EdgeMeans(l: Lib, c: Ctx, tw: int, tok: Token, axis: Axis, size: Option<Size>)
    requires tok.Rel? && (tok.kind == Right || tok.kind == Bottom)
    ensures Where(l, c, tw, tok, axis, size) == ValueOf(l, c, tw, Anchor(tok, axis, size))
  {
    assert Eval(l, c, tw, SatSub(Dim(axis), Const(tok.n))) == Saturating(Extent(c, axis), tok.n);
  }

  lemma CentreMeans(l: Lib, c: Ctx, tw: int, tok: Token, axis: Axis, size: Option<Size>)
    requires tok.Rel? && tok.kind == Center
    ensures Anchor(tok, axis, size).Ok?
    ensures Where(l, c, tw, tok, axis, size) == Some(Eval(l, c, tw, Anchor(tok, axis, size).value))
  {
  }

  function ValueOf(l: Lib, c: Ctx, tw: int, r: Result<Expr>): Option<int> {
    if r.Ok? then Some(Eval(l, c, tw, r.value)) else None
  }

  /** WHAT A POSITION SAYS, or that it is refused: the compiled expression has the described value on every
      canvas, and there is none exactly when the description gives none. */
  lemma PositionsMean(l: Lib, c: Ctx, tw: int, tok: Token, axis: Axis, size: Option<Size>)
    ensures Where(l, c, tw, tok, axis, size) == ValueOf(l, c, tw, Anchor(tok, axis, size))
  {
    if tok.Rel? && tok.kind == Center { CentreMeans(l, c, tw, tok, axis, size); }
    if tok.Rel? && tok.kind == End && Anchor(tok, axis, size).Ok? { EndMeans(l, c, tw, tok, axis, size); }
    if tok.Rel? && (tok.kind == Right || tok.kind == Bottom) { EdgeMeans(l, c, tw, tok, axis, size); }
  }

  /** WHICH TOKENS ARE REFUSED: a malformed one, left or top with a minus, right, bottom or end with a plus and a
      distance, and end where there is no width to end. */
  lemma RefusedExactly(tok: Token, axis: Axis, size: Option<Size>)
    ensures Anchor(tok, axis, size).Err?
       <==> || tok == Malformed
            || (tok.Rel? && (tok.kind == Left || tok.kind == Top) && tok.sign == Minus)
            || (tok.Rel? && (tok.kind == Right || tok.kind == Bottom || tok.kind == End) && tok.sign == Plus && tok.n > 0)
            || (tok.Rel? && tok.kind == End && (axis == Y || size == None))
  {
  }
}
