/** The panel compiler: widgets in, one generated row function out, with everything that does not
    depend on x hoisted into a prologue. */
module PanelCompiler {

  datatype Option<T> = None | Some(value: T)

  datatype Result<T> = Ok(value: T) | Err(error: Error)

  datatype Error = BadPosition | OffTheCanvas | EndOnlyOnX | UnknownAsset | BadGuard

  // --- Source -------------------------------------------------------------------------------

  datatype Axis = X | Y

  datatype Kind = Center | Right | End | Bottom | Left | Top

  datatype Sign = NoSign | Plus | Minus

  /** `at:` as a number, a relative position, or something that is neither. */
  datatype Token = At(n: nat) | Rel(kind: Kind, sign: Sign, n: nat) | Malformed

  datatype Op = Eq | Ne

  /** `when:` as `key == 'literal'`, `key != 'literal'`, or something that does not parse. */
  datatype When = Always | If(key: string, op: Op, lit: string) | Unparsable

  /** A text's string: a literal or a live value, perhaps between a prefix and a suffix. */
  datatype Source = Lit(s: string) | Val(key: string) | Joined(pre: string, inner: Source, suf: string)

  datatype Widget =
    | Border(color: int)
    | Text(x: Token, y: Token, font: string, ramp: int, when: When, src: Source)
    | Icon(x: Token, y: Token, icon: string, ramp: int, when: When)
    | Lambda(row: Option<RowCode>, code: (Ctx, int, int) -> Option<int>)

  /** A lambda's `row:` source, spliced into the prologue as it stands: it may rebind what is in scope. What its
      own locals hold depends on the context and the row alone, so `code` stands for their readers. */
  type RowCode = (Ctx, int, Scope) -> Scope

  datatype Doc = Doc(widgets: seq<Widget>, fonts: set<string>, icons: set<string>, bg: int)

  /** The canvas and the live values a program is rendered with. */
  datatype Ctx = Ctx(w: nat, h: nat, val: string -> string)

  /** The asset routines the generated code calls. */
  datatype Lib = Lib(lh: string -> int, width: (string, string) -> int, join: (string, string, string) -> string,
                     glyph: (string, string, int, int, int, int) -> Option<int>,
                     iconW: string -> int, iconH: string -> int, ink: (string, int, int, int, int) -> Option<int>)

  // --- Generated code -----------------------------------------------------------------------

  datatype Size = RunWidth | IconWidth(icon: string)

  /** Position expressions over usize, subtraction saturating. */
  datatype Expr =
    | Const(n: int) | Dim(axis: Axis) | SizeOf(size: Size) | Plus2(a: Expr, b: Expr) | SatSub(a: Expr, b: Expr)
    | Centred(axis: Axis, size: Size) | Half(axis: Axis)

  /** A comparison against a per-row local named by an identifier. */
  datatype Guard = NoGuard | Test(id: string, op: Op, lit: string)

  datatype Pro =
    | ProText(k: nat, oy: Expr, ox: Expr, font: string, guard: Guard, src: Source)
    | ProIcon(k: nat, iy: Expr, ix: Expr, icon: string, guard: Guard)
    | ProLambda(row: RowCode)

  datatype Px =
    | PxBorder(color: int)
    | PxText(k: nat, font: string, ramp: int)
    | PxIcon(k: nat, icon: string, ramp: int)
    | PxLambda(code: (Ctx, int, int) -> Option<int>)

  /** The prologue, the pixel body, the gates in it, and the values read, in order of first use. */
  datatype Code = Code(pro: seq<Pro>, px: seq<Px>, gates: seq<nat>, keys: seq<string>)

  // --- Compiling ----------------------------------------------------------------------------

  predicate Digit(c: char) { '0' <= c <= '9' }

  predicate WordChar(c: char) { Digit(c) || 'A' <= c <= 'Z' || 'a' <= c <= 'z' || c == '_' }

  function Cleaned(s: string): string {
    if s == "" then "" else [if WordChar(s[0]) then s[0] else '_'] + Cleaned(s[1..])
  }

  /** A valid identifier for a name. */
  function Ident(name: string): string {
    var out := Cleaned(name);
    if out == "" || Digit(out[0]) then "p_" + out else out
  }

  lemma {:induction false} CleanedIsWord(s: string)
    ensures |Cleaned(s)| == |s| && forall k | 0 <= k < |s| :: WordChar(Cleaned(s)[k])
  {
    if s != "" { CleanedIsWord(s[1..]); }
  }

  /** Whatever the name, its identifier is one: word characters, not empty, no digit first. */
  lemma IdentIsIdentifier(name: string)
    ensures var id := Ident(name);
            id != "" && !Digit(id[0]) && forall k | 0 <= k < |id| :: WordChar(id[k])
  {
    CleanedIsWord(name);
  }

  function Anchor(tok: Token, axis: Axis, size: Option<Size>): Result<Expr> {
    match tok
    case Malformed => Err(BadPosition)
    case At(n) => Ok(Const(n))
    case Rel(kind, sign, n) =>
      if kind == Left || kind == Top then
        (if sign == Minus then Err(OffTheCanvas) else Ok(Const(n)))
      else if kind == Right || kind == Bottom then
        (if sign == Plus && n != 0 then Err(OffTheCanvas) else Ok(SatSub(Dim(axis), Const(n))))
      else if kind == End then
        (if axis != X || size == None then Err(EndOnlyOnX)
         else if sign == Plus && n != 0 then Err(OffTheCanvas)
         else Ok(SatSub(Dim(axis), Plus2(SizeOf(size.value), Const(n)))))
      else
        var base := if axis == X && size != None then Centred(axis, size.value) else Half(axis);
        if n == 0 then Ok(base) else if sign == Minus then Ok(SatSub(base, Const(n))) else Ok(Plus2(base, Const(n)))
  }

  function AddKey(keys: seq<string>, key: string): seq<string> { if key in keys then keys else keys + [key] }

  function GuardOf(when: When): Guard {
    match when
    case If(key, op, lit) => Test(Ident(key), op, lit)
    case _ => NoGuard
  }

  function KeysOf(keys: seq<string>, when: When): seq<string> {
    match when
    case If(key, _, _) => AddKey(keys, key)
    case _ => keys
  }

  function Emit1(d: Doc, code: Code, k: nat, w: Widget): Result<Code> {
    match w
    case Border(color) => Ok(code.(px := code.px + [PxBorder(color)]))
    case Lambda(row, f) =>
      Ok(code.(pro := if row == None then code.pro else code.pro + [ProLambda(row.value)], px := code.px + [PxLambda(f)]))
    case Text(x, y, font, ramp, when, src) =>
      if font !in d.fonts then Err(UnknownAsset)
      else if when.Unparsable? then Err(BadGuard)
      else
        var oy, ox := Anchor(y, Y, None), Anchor(x, X, Some(RunWidth));
        if oy.Err? then Err(oy.error) else if ox.Err? then Err(ox.error)
        else Ok(Code(code.pro + [ProText(k, oy.value, ox.value, font, GuardOf(when), src)],
                     code.px + [PxText(k, font, ramp)], code.gates + [k], KeysOf(code.keys, when)))
    case Icon(x, y, icon, ramp, when) =>
      if when.Unparsable? then Err(BadGuard)
      else if icon !in d.icons then Err(UnknownAsset)
      else
        var iy, ix := Anchor(y, Y, None), Anchor(x, X, Some(IconWidth(icon)));
        if iy.Err? then Err(iy.error) else if ix.Err? then Err(ix.error)
        else Ok(Code(code.pro + [ProIcon(k, iy.value, ix.value, icon, GuardOf(when))],
                     code.px + [PxIcon(k, icon, ramp)], code.gates + [k], KeysOf(code.keys, when)))
  }

  /** The code of the first n widgets. */
  function Emit(d: Doc, n: nat): Result<Code>
    requires n <= |d.widgets|
  {
    if n == 0 then Ok(Code([], [], [], []))
    else
      var r := Emit(d, n - 1);
      if r.Err? then r else Emit1(d, r.value, n - 1, d.widgets[n - 1])
  }

  lemma {:induction false} EmitFailsOn(d: Doc, n: nat, m: nat)
    requires n <= m <= |d.widgets| && Emit(d, n).Err?
    ensures Emit(d, m) == Emit(d, n)
    decreases m
  {
    if n < m { EmitFailsOn(d, n, m - 1); }
  }

  /** A program with a lambda or a border may ink any row. */
  predicate Catchall(d: Doc) { exists k | 0 <= k < |d.widgets| :: d.widgets[k].Lambda? || d.widgets[k].Border? }

  /** The compiler's own loop: three lists and the keys grow widget by widget. */
  method EmitProgram(d: Doc) returns (r: Result<Code>, catchall: bool)
    ensures r == Emit(d, |d.widgets|)
    ensures catchall == Catchall(d)
  {
    catchall := exists k | 0 <= k < |d.widgets| :: d.widgets[k].Lambda? || d.widgets[k].Border?;
    var pro: seq<Pro>, px: seq<Px>, gates: seq<nat>, keys: seq<string> := [], [], [], [];
    for k := 0 to |d.widgets|
      invariant Emit(d, k) == Ok(Code(pro, px, gates, keys))
    {
      var w := d.widgets[k];
      match w {
        case Border(color) =>
          px := px + [PxBorder(color)];
        case Lambda(row, f) =>
          if row.Some? { pro := pro + [ProLambda(row.value)]; }
          px := px + [PxLambda(f)];
        case Text(x, y, font, ramp, when, src) =>
          if font !in d.fonts || when.Unparsable? {
            r := Err(if font !in d.fonts then UnknownAsset else BadGuard);
            EmitFailsOn(d, k + 1, |d.widgets|);
            return;
          }
          keys := KeysOf(keys, when);
          var oy, ox := Anchor(y, Y, None), Anchor(x, X, Some(RunWidth));
          if oy.Err? || ox.Err? {
            r := Err(if oy.Err? then oy.error else ox.error);
            EmitFailsOn(d, k + 1, |d.widgets|);
            return;
          }
          gates := gates + [k];
          pro := pro + [ProText(k, oy.value, ox.value, font, GuardOf(when), src)];
          px := px + [PxText(k, font, ramp)];
        case Icon(x, y, icon, ramp, when) =>
          if when.Unparsable? || icon !in d.icons {
            r := Err(if when.Unparsable? then BadGuard else UnknownAsset);
            EmitFailsOn(d, k + 1, |d.widgets|);
            return;
          }
          keys := KeysOf(keys, when);
          gates := gates + [k];
          var iy, ix := Anchor(y, Y, None), Anchor(x, X, Some(IconWidth(icon)));
          if iy.Err? || ix.Err? {
            r := Err(if iy.Err? then iy.error else ix.error);
            EmitFailsOn(d, k + 1, |d.widgets|);
            return;
          }
          pro := pro + [ProIcon(k, iy.value, ix.value, icon, GuardOf(when))];
          px := px + [PxIcon(k, icon, ramp)];
      }
    }
    r := Ok(Code(pro, px, gates, keys));
  }

  // --- Running the generated code -----------------------------------------------------------

  function SizeIs(l: Lib, tw: int, size: Size): int {
    match size
    case RunWidth => tw
    case IconWidth(icon) => l.iconW(icon)
  }

  function Extent(c: Ctx, axis: Axis): int { if axis == X then c.w else c.h }

  function Saturating(a: int, b: int): int { if a < b then 0 else a - b }

  function Eval(l: Lib, c: Ctx, tw: int, e: Expr): int {
    match e
    case Const(n) => n
    case Dim(axis) => Extent(c, axis)
    case SizeOf(size) => SizeIs(l, tw, size)
    case Plus2(a, b) => Eval(l, c, tw, a) + Eval(l, c, tw, b)
    case SatSub(a, b) => Saturating(Eval(l, c, tw, a), Eval(l, c, tw, b))
    case Centred(axis, size) =>
      if Extent(c, axis) > SizeIs(l, tw, size) then (Extent(c, axis) - SizeIs(l, tw, size)) / 2 else 2
    case Half(axis) => Extent(c, axis) / 2
  }

  function Str(l: Lib, c: Ctx, s: Source): string {
    match s
    case Lit(t) => t
    case Val(key) => c.val(key)
    case Joined(pre, inner, suf) => l.join(pre, Str(l, c, inner), suf)
  }

  /** The local that `let v_... = ctx.val(...)`, once per key and in order, leaves under a name. */
  function Hoisted(keys: seq<string>, val: string -> string, id: string): string {
    if keys == [] then ""
    else
      var key := keys[|keys| - 1];
      if Ident(key) == id then val(key) else Hoisted(keys[..|keys| - 1], val, id)
  }

  predicate Compare(op: Op, a: string, b: string) { if op == Eq then a == b else a != b }

  /** A guard reads the per-row locals. */
  predicate Passes(vals: string -> string, g: Guard) {
    match g
    case NoGuard => true
    case Test(id, op, lit) => Compare(op, vals(id), lit)
  }

  /** A row's locals for one widget. */
  datatype Local = Local(g: bool, s: string, o: int, e: int, top: int)

  /** What the prologue has in scope: the hoisted values by identifier, and each widget's locals. */
  datatype Scope = Scope(vals: string -> string, locals: map<nat, Local>)

  function ProLocal(l: Lib, vals: string -> string, c: Ctx, y: int, p: Pro): Local
    requires !p.ProLambda?
  {
    match p
    case ProText(_, oy, ox, font, guard, src) =>
      var top := Eval(l, c, 0, oy);
      if top <= y < top + l.lh(font) && Passes(vals, guard) then
        var s := Str(l, c, src);
        var tw := l.width(font, s);
        var o := Eval(l, c, tw, ox);
        Local(true, s, o, o + tw + 4, top)
      else Local(false, "", 0, 0, top)
    case ProIcon(_, iy, ix, icon, guard) =>
      var top, o := Eval(l, c, 0, iy), Eval(l, c, 0, ix);
      Local(top <= y < top + l.iconH(icon) && Passes(vals, guard), "", o, o + l.iconW(icon), top)
  }

  function ProNext(l: Lib, c: Ctx, y: int, s: Scope, p: Pro): Scope {
    if p.ProLambda? then p.row(c, y, s) else s.(locals := s.locals[p.k := ProLocal(l, s.vals, c, y, p)])
  }

  function RunPro(l: Lib, c: Ctx, y: int, s: Scope, pro: seq<Pro>): Scope {
    if pro == [] then s else ProNext(l, c, y, RunPro(l, c, y, s, pro[..|pro| - 1]), pro[|pro| - 1])
  }

  /** The scope before the prologue's first statement. */
  function Hoist(keys: seq<string>, c: Ctx): Scope { Scope(id => Hoisted(keys, c.val, id), map[]) }

  /** The locals the pixel body finds. */
  function LocalsOf(l: Lib, code: Code, c: Ctx, y: int): map<nat, Local> {
    RunPro(l, c, y, Hoist(code.keys, c), code.pro).locals
  }

  function Tint(ramp: int, cover: Option<int>): Option<int> {
    if cover == None then None else Some(ramp + cover.value)
  }

  predicate OnBorder(c: Ctx, x: int, y: int) { x == 0 || y == 0 || x == c.w - 1 || y == c.h - 1 }

  predicate Bound(locals: map<nat, Local>, px: Px) {
    match px
    case PxText(k, _, _) => k in locals
    case PxIcon(k, _, _) => k in locals
    case _ => true
  }

  /** One statement of the pixel body: an index to return, or nothing. */
  function PxValue(l: Lib, c: Ctx, locals: map<nat, Local>, px: Px, x: int, y: int): Option<int>
    requires Bound(locals, px)
  {
    match px
    case PxBorder(color) => if OnBorder(c, x, y) then Some(color) else None
    case PxLambda(f) => f(c, x, y)
    case PxText(k, font, ramp) =>
      var v := locals[k];
      if v.g && v.o <= x < v.e then Tint(ramp, l.glyph(font, v.s, x, y, v.o, v.top)) else None
    case PxIcon(k, icon, ramp) =>
      var v := locals[k];
      if v.g && v.o <= x < v.e then Tint(ramp, l.ink(icon, x, y, v.o, v.top)) else None
  }

  function Body(l: Lib, c: Ctx, bg: int, locals: map<nat, Local>, px: seq<Px>, x: int, y: int): int
    requires forall k | 0 <= k < |px| :: Bound(locals, px[k])
  {
    if px == [] then bg
    else if PxValue(l, c, locals, px[0], x, y) != None then PxValue(l, c, locals, px[0], x, y).value
    else Body(l, c, bg, locals, px[1..], x, y)
  }

  /** The prologue has bound every local that the gates and the pixel body use. */
  predicate AllBound(code: Code, locals: map<nat, Local>) {
    && (forall k | 0 <= k < |code.gates| :: code.gates[k] in locals)
    && (forall k | 0 <= k < |code.px| :: Bound(locals, code.px[k]))
  }

  predicate Runs(l: Lib, code: Code, c: Ctx, y: int) { AllBound(code, LocalsOf(l, code, c, y)) }

  /** No widget's band reaches the row, and nothing else could ink it. */
  predicate Skips(code: Code, catchall: bool, locals: map<nat, Local>)
    requires forall k | 0 <= k < |code.gates| :: code.gates[k] in locals
  {
    code.gates != [] && !catchall && !(exists k | 0 <= k < |code.gates| :: locals[code.gates[k]].g)
  }

  /** The whole row function: skip the row, or walk the widgets at each pixel. */
  function RenderRow(l: Lib, code: Code, catchall: bool, bg: int, c: Ctx, y: int, x0: int, n: nat): (row: seq<int>)
    requires Runs(l, code, c, y)
    ensures |row| == n
  {
    FillRow(l, code, LocalsOf(l, code, c, y), catchall, bg, c, y, x0, n)
  }

  /** The row once its locals are bound. */
  function FillRow(l: Lib, code: Code, locals: map<nat, Local>, catchall: bool, bg: int, c: Ctx, y: int, x0: int, n: nat):
      (row: seq<int>)
    requires AllBound(code, locals)
    ensures |row| == n
  {
    if Skips(code, catchall, locals) then seq(n, i => bg)
    else seq(n, i => Body(l, c, bg, locals, code.px, x0 + i, y))
  }
}
