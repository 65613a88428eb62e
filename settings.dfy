/**
 * The `Settings` record of include/AudioManager.h, the layout-mode
 * constants, the THROW_ON_ERROR macro, and the C++ aggregate initialisation
 * that fills `Settings` from the DEFAULT_SETTINGS initialiser list of
 * include/Globals.h, position by position, with brace elision.
 */
module AudioSettings {
  import opened Wrappers

  /** Layout mode indices stored in `Settings.modeIndex`. */
  const DEFAULT_M: nat := 0
  const SYMMETRIC_M: nat := 1
  const DOUBLE_SYM_M: nat := 2

  type u32 = x: int | 0 <= x < 0x1_0000_0000
  type i32 = x: int | -0x8000_0000 <= x < 0x8000_0000

  /** The passive configuration record, field for field. GLfloat and float are modelled as `real`. */
  datatype Settings = Settings(
    smoothing: bool,
    modeIndex: u32,
    baseColor: seq<real>,
    barColor: seq<real>,
    barHeightScale: real,
    windowHeight: i32,
    windowWidth: i32,
    smoothingCoef: real)

  /** The outcome of an operation that may throw. */
  datatype Status = Ok | RuntimeError(message: string) | InvalidArgument(message: string)

  /** The Windows FAILED test on an HRESULT: the code is negative. */
  predicate Failed(hr: int) { hr < 0 }

  /** THROW_ON_ERROR: throws a runtime_error carrying the message exactly when the code failed. */
  function ThrowOnError(hr: int, message: string): (s: Status)
    ensures s == Ok <==> !Failed(hr)
    ensures s != Ok ==> s == RuntimeError(message)
  {
    if Failed(hr) then RuntimeError(message) else Ok
  }

  // ---------------------------------------------------------------------
  // Aggregate initialisation
  // ---------------------------------------------------------------------

  /** A literal as it appears in an initialiser list. */
  datatype Literal = BoolLit(b: bool) | IntLit(i: int) | FloatLit(f: real)

  /** One element of an initialiser list: a plain expression or a nested braced list. */
  datatype Initializer = Expr(lit: Literal) | Braced(elems: seq<Literal>)

  /** The kind of one member of an aggregate. */
  datatype FieldKind = BoolField | UIntField | IntField | FloatField | FloatArray(length: nat)

  /** The value a member receives. */
  datatype FieldValue = BoolValue(b: bool) | IntValue(i: int) | FloatValue(f: real) | ArrayValue(elems: seq<real>)

  /** The members of `Settings`, in declaration order. */
  const SETTINGS_FIELDS: seq<FieldKind> :=
    [BoolField, UIntField, FloatArray(4), FloatArray(4), FloatField, IntField, IntField, FloatField]

  /** The member list the comment above DEFAULT_SETTINGS describes (an older shape of the record). */
  const COMMENTED_FIELDS: seq<FieldKind> :=
    [BoolField, UIntField, FloatArray(3), FloatField, IntField, IntField, FloatField]

  /** DEFAULT_SETTINGS: `true, 0, {1.0f, 0.0f, 0.0f}, 1.0f, 1080, 1920, 0.9f`. */
  const DEFAULT_SETTINGS: seq<Initializer> :=
    [Expr(BoolLit(true)), Expr(IntLit(0)), Braced([FloatLit(1.0), FloatLit(0.0), FloatLit(0.0)]),
     Expr(FloatLit(1.0)), Expr(IntLit(1080)), Expr(IntLit(1920)), Expr(FloatLit(0.9))]

  /** A value fits a member of the given kind. */
  predicate Fits(kind: FieldKind, v: FieldValue) {
    match kind
    case BoolField => v.BoolValue?
    case UIntField => v.IntValue? && 0 <= v.i < 0x1_0000_0000
    case IntField => v.IntValue? && -0x8000_0000 <= v.i < 0x8000_0000
    case FloatField => v.FloatValue?
    case FloatArray(n) => v.ArrayValue? && |v.elems| == n
  }

  /** The value-initialised (zero) value of a member. */
  function ZeroOf(kind: FieldKind): (v: FieldValue)
    ensures Fits(kind, v)
  {
    match kind
    case BoolField => BoolValue(false)
    case UIntField => IntValue(0)
    case IntField => IntValue(0)
    case FloatField => FloatValue(0.0)
    case FloatArray(n) => ArrayValue(seq(n, _ => 0.0))
  }

  /**
   * Conversion of a literal to a scalar member.  Conversions the model does
   * not cover, and ones that would narrow, give None.
   */
  function Convert(kind: FieldKind, lit: Literal): (r: Option<FieldValue>)
    ensures r.Some? ==> Fits(kind, r.value)
  {
    match (kind, lit)
    case (BoolField, BoolLit(b)) => Some(BoolValue(b))
    case (UIntField, IntLit(i)) => if 0 <= i < 0x1_0000_0000 then Some(IntValue(i)) else None
    case (IntField, IntLit(i)) => if -0x8000_0000 <= i < 0x8000_0000 then Some(IntValue(i)) else None
    case (FloatField, FloatLit(f)) => Some(FloatValue(f))
    case (FloatField, IntLit(i)) => Some(FloatValue(i as real))
    case _ => None
  }

  /** Conversion of a list of literals to float array elements. */
  function FloatsOf(lits: seq<Literal>): (r: Option<seq<real>>)
    ensures r.Some? ==> |r.value| == |lits|
  {
    if lits == [] then Some([])
    else match (Convert(FloatField, lits[0]), FloatsOf(lits[1..]))
      case (Some(FloatValue(f)), Some(fs)) => Some([f] + fs)
      case _ => None
  }

  /** The literals of the first k initialisers, provided none of them is a braced list. */
  function PlainPrefix(inits: seq<Initializer>, k: nat): (r: Option<seq<Literal>>)
    requires k <= |inits|
    ensures r.Some? ==> |r.value| == k
  {
    if k == 0 then Some([])
    else match (inits[0], PlainPrefix(inits[1..], k - 1))
      case (Expr(lit), Some(lits)) => Some([lit] + lits)
      case _ => None
  }

  function Prepend(v: FieldValue, rest: Option<seq<FieldValue>>): Option<seq<FieldValue>> {
    match rest
    case None => None
    case Some(vs) => Some([v] + vs)
  }

  /** An array member receives the given elements followed by zeros. */
  function PadArray(n: nat, fs: seq<real>): (v: FieldValue)
    requires |fs| <= n
    ensures v.ArrayValue? && |v.elems| == n
    ensures forall j :: 0 <= j < n ==> v.elems[j] == if j < |fs| then fs[j] else 0.0
  {
    ArrayValue(fs + seq(n - |fs|, _ => 0.0))
  }

  /**
   * Aggregate initialisation of members of the given kinds, in order, from
   * an initialiser list.  A braced list initialises an array member by
   * itself; otherwise brace elision lets the array take as many of the
   * following plain initialisers as it has elements.  Members left without
   * an initialiser are zero; surplus initialisers make the list ill-formed.
   */
  function InitFields(kinds: seq<FieldKind>, inits: seq<Initializer>): (r: Option<seq<FieldValue>>)
    ensures r.Some? ==> |r.value| == |kinds|
    decreases |kinds|
  {
    if kinds == [] then
      if inits == [] then Some([]) else None
    else if kinds[0].FloatArray? then
      var n := kinds[0].length;
      if inits != [] && inits[0].Braced? then
        if |inits[0].elems| > n then None
        else
          (match FloatsOf(inits[0].elems)
           case None => None
           case Some(fs) => Prepend(PadArray(n, fs), InitFields(kinds[1..], inits[1..])))
      else
        var k := if n < |inits| then n else |inits|;
        (match PlainPrefix(inits, k)
         case None => None
         case Some(lits) =>
           (match FloatsOf(lits)
            case None => None
            case Some(fs) => Prepend(PadArray(n, fs), InitFields(kinds[1..], inits[k..]))))
    else if inits == [] then Prepend(ZeroOf(kinds[0]), InitFields(kinds[1..], []))
    else if inits[0].Braced? then None
    else
      (match Convert(kinds[0], inits[0].lit)
       case None => None
       case Some(v) => Prepend(v, InitFields(kinds[1..], inits[1..])))
  }

  /** Every member value an initialiser list yields fits its member. */
  lemma {:induction false} InitFieldsFit(kinds: seq<FieldKind>, inits: seq<Initializer>)
    ensures InitFields(kinds, inits).Some? ==>
              forall j :: 0 <= j < |kinds| ==> Fits(kinds[j], InitFields(kinds, inits).value[j])
    decreases |kinds|
  {
    var r := InitFields(kinds, inits);
    if kinds != [] && r.Some? {
      var k := if kinds[0].FloatArray? && (inits == [] || !inits[0].Braced?) then
                 (if kinds[0].length < |inits| then kinds[0].length else |inits|)
               else if inits == [] then 0 else 1;
      InitFieldsFit(kinds[1..], inits[k..]);
      var tail := InitFields(kinds[1..], inits[k..]);
      assert tail.Some? && r.value[1..] == tail.value;
      forall j | 1 <= j < |kinds|
        ensures Fits(kinds[j], r.value[j])
      {
        assert r.value[j] == tail.value[j - 1] && kinds[j] == kinds[1..][j - 1];
      }
    }
  }

  /** Builds the record from member values that fit `SETTINGS_FIELDS`. */
  function ToSettings(vs: seq<FieldValue>): Settings
    requires |vs| == |SETTINGS_FIELDS|
    requires forall j :: 0 <= j < |vs| ==> Fits(SETTINGS_FIELDS[j], vs[j])
  {
    assert Fits(SETTINGS_FIELDS[0], vs[0]) && Fits(SETTINGS_FIELDS[1], vs[1]) && Fits(SETTINGS_FIELDS[2], vs[2]);
    assert Fits(SETTINGS_FIELDS[3], vs[3]) && Fits(SETTINGS_FIELDS[4], vs[4]) && Fits(SETTINGS_FIELDS[5], vs[5]);
    assert Fits(SETTINGS_FIELDS[6], vs[6]) && Fits(SETTINGS_FIELDS[7], vs[7]);
    Settings(vs[0].b, vs[1].i, vs[2].elems, vs[3].elems, vs[4].f, vs[5].i, vs[6].i, vs[7].f)
  }

  /** `Settings settings{...}`: the record built from an initialiser list, or None if the list is ill-formed. */
  function InitSettings(inits: seq<Initializer>): (r: Option<Settings>)
    ensures r.Some? ==> |r.value.baseColor| == 4 && |r.value.barColor| == 4
  {
    match InitFields(SETTINGS_FIELDS, inits)
    case None => None
    case Some(vs) =>
      InitFieldsFit(SETTINGS_FIELDS, inits);
      assert Fits(SETTINGS_FIELDS[2], vs[2]) && Fits(SETTINGS_FIELDS[3], vs[3]);
      Some(ToSettings(vs))
  }

  /** The initialiser list yields exactly these member values. */
  predicate Yields(r: Option<seq<FieldValue>>, vs: seq<FieldValue>) {
    r.Some? && r.value == vs
  }

  /** A scalar member takes the next plain initialiser, converted. */
  lemma ScalarStep(k: FieldKind, ks: seq<FieldKind>, lit: Literal, rest: seq<Initializer>, v: FieldValue, vs: seq<FieldValue>)
    requires !k.FloatArray? && Convert(k, lit) == Some(v) && Yields(InitFields(ks, rest), vs)
    ensures Yields(InitFields([k] + ks, [Expr(lit)] + rest), [v] + vs)
  {
    assert ([k] + ks)[1..] == ks;
    assert ([Expr(lit)] + rest)[1..] == rest;
  }

  /** A scalar member with no initialiser left is zero. */
  lemma ZeroStep(k: FieldKind, ks: seq<FieldKind>, vs: seq<FieldValue>)
    requires !k.FloatArray? && Yields(InitFields(ks, []), vs)
    ensures Yields(InitFields([k] + ks, []), [ZeroOf(k)] + vs)
  {
    assert ([k] + ks)[1..] == ks;
  }

  /** One more literal converted to a float element. */
  lemma FloatStep(lit: Literal, lits: seq<Literal>, f: real, fs: seq<real>)
    requires Convert(FloatField, lit) == Some(FloatValue(f)) && FloatsOf(lits) == Some(fs)
    ensures FloatsOf([lit] + lits) == Some([f] + fs)
  {
    assert ([lit] + lits)[1..] == lits;
  }

  /** One more plain initialiser taken by an elided array. */
  lemma PlainStep(lit: Literal, inits: seq<Initializer>, k: nat, lits: seq<Literal>)
    requires k <= |inits| && PlainPrefix(inits, k) == Some(lits)
    ensures PlainPrefix([Expr(lit)] + inits, k + 1) == Some([lit] + lits)
  {
    assert ([Expr(lit)] + inits)[1..] == inits;
  }

  /** An array member initialised by a braced list of its own. */
  lemma BracedStep(n: nat, ks: seq<FieldKind>, lits: seq<Literal>, rest: seq<Initializer>,
                   fs: seq<real>, vs: seq<FieldValue>)
    requires |lits| <= n && FloatsOf(lits) == Some(fs) && Yields(InitFields(ks, rest), vs)
    ensures Yields(InitFields([FloatArray(n)] + ks, [Braced(lits)] + rest), [PadArray(n, fs)] + vs)
  {
    assert ([FloatArray(n)] + ks)[1..] == ks;
    assert ([Braced(lits)] + rest)[1..] == rest;
  }

  /** An array member that, by brace elision, takes its n elements from the following plain initialisers. */
  lemma ElidedStep(n: nat, ks: seq<FieldKind>, inits: seq<Initializer>, lits: seq<Literal>,
                   fs: seq<real>, vs: seq<FieldValue>)
    requires n <= |inits| && (inits == [] || !inits[0].Braced?)
    requires PlainPrefix(inits, n) == Some(lits) && FloatsOf(lits) == Some(fs)
    requires Yields(InitFields(ks, inits[n..]), vs)
    ensures Yields(InitFields([FloatArray(n)] + ks, inits), [PadArray(n, fs)] + vs)
  {
    assert ([FloatArray(n)] + ks)[1..] == ks;
  }

  /** The members after `barColor`, and the four plain initialisers after the braced triple. */
  const TRAILING_FIELDS: seq<FieldKind> := [FloatField, IntField, IntField, FloatField]
  const PLAIN_TAIL: seq<Initializer> :=
    [Expr(FloatLit(1.0)), Expr(IntLit(1080)), Expr(IntLit(1920)), Expr(FloatLit(0.9))]
  const BRACED_TRIPLE: seq<Literal> := [FloatLit(1.0), FloatLit(0.0), FloatLit(0.0)]

  /** The four trailing members of the record receive nothing and are zero. */
  lemma TrailingFieldsZero()
    ensures Yields(InitFields(TRAILING_FIELDS, []), [FloatValue(0.0), IntValue(0), IntValue(0), FloatValue(0.0)])
  {
    var t3: seq<FieldKind> := [FloatField];
    ZeroStep(FloatField, [], []);
    assert [FloatField] + [] == t3 && [ZeroOf(FloatField)] + [] == [FloatValue(0.0)];
    ZeroStep(IntField, t3, [FloatValue(0.0)]);
    var t2: seq<FieldKind> := [IntField] + t3;
    ZeroStep(IntField, t2, [IntValue(0)] + [FloatValue(0.0)]);
    var t1: seq<FieldKind> := [IntField] + t2;
    ZeroStep(FloatField, t1, [IntValue(0)] + ([IntValue(0)] + [FloatValue(0.0)]));
    assert [FloatField] + t1 == TRAILING_FIELDS;
    assert [ZeroOf(FloatField)] + ([ZeroOf(IntField)] + ([ZeroOf(IntField)] + [FloatValue(0.0)]))
        == [FloatValue(0.0), IntValue(0), IntValue(0), FloatValue(0.0)];
  }

  /** The four plain initialisers, taken together, are these literals. */
  lemma PlainTailLiterals()
    ensures PlainPrefix(PLAIN_TAIL, 4) == Some([FloatLit(1.0), IntLit(1080), IntLit(1920), FloatLit(0.9)])
  {
    var p3: seq<Initializer> := [Expr(FloatLit(0.9))];
    var p2 := [Expr(IntLit(1920))] + p3;
    var p1 := [Expr(IntLit(1080))] + p2;
    PlainStep(FloatLit(0.9), [], 0, []);
    assert [Expr(FloatLit(0.9))] + [] == p3 && [FloatLit(0.9)] + [] == [FloatLit(0.9)];
    PlainStep(IntLit(1920), p3, 1, [FloatLit(0.9)]);
    PlainStep(IntLit(1080), p2, 2, [IntLit(1920)] + [FloatLit(0.9)]);
    PlainStep(FloatLit(1.0), p1, 3, [IntLit(1080)] + ([IntLit(1920)] + [FloatLit(0.9)]));
    assert [Expr(FloatLit(1.0))] + p1 == PLAIN_TAIL;
    assert [FloatLit(1.0)] + ([IntLit(1080)] + ([IntLit(1920)] + [FloatLit(0.9)]))
        == [FloatLit(1.0), IntLit(1080), IntLit(1920), FloatLit(0.9)];
  }

  /** Those literals as float elements. */
  lemma PlainTailFloats()
    ensures FloatsOf([FloatLit(1.0), IntLit(1080), IntLit(1920), FloatLit(0.9)]) == Some([1.0, 1080.0, 1920.0, 0.9])
  {
    FloatStep(FloatLit(0.9), [], 0.9, []);
    assert [FloatLit(0.9)] + [] == [FloatLit(0.9)] && [0.9] + [] == [0.9];
    FloatStep(IntLit(1920), [FloatLit(0.9)], 1920.0, [0.9]);
    FloatStep(IntLit(1080), [IntLit(1920)] + [FloatLit(0.9)], 1080.0, [1920.0] + [0.9]);
    FloatStep(FloatLit(1.0), [IntLit(1080)] + ([IntLit(1920)] + [FloatLit(0.9)]), 1.0,
              [1080.0] + ([1920.0] + [0.9]));
    assert [FloatLit(1.0)] + ([IntLit(1080)] + ([IntLit(1920)] + [FloatLit(0.9)]))
        == [FloatLit(1.0), IntLit(1080), IntLit(1920), FloatLit(0.9)];
    assert [1.0] + ([1080.0] + ([1920.0] + [0.9])) == [1.0, 1080.0, 1920.0, 0.9];
  }

  /** The braced triple as float elements. */
  lemma BracedTripleFloats()
    ensures FloatsOf(BRACED_TRIPLE) == Some([1.0, 0.0, 0.0])
  {
    FloatStep(FloatLit(0.0), [], 0.0, []);
    assert [FloatLit(0.0)] + [] == [FloatLit(0.0)] && [0.0] + [] == [0.0];
    FloatStep(FloatLit(0.0), [FloatLit(0.0)], 0.0, [0.0]);
    FloatStep(FloatLit(1.0), [FloatLit(0.0)] + [FloatLit(0.0)], 1.0, [0.0] + [0.0]);
    assert [FloatLit(1.0)] + ([FloatLit(0.0)] + [FloatLit(0.0)]) == BRACED_TRIPLE;
    assert [1.0] + ([0.0] + [0.0]) == [1.0, 0.0, 0.0];
  }

  /** Brace elision: barColor, having no braces of its own, takes all four plain initialisers. */
  lemma BarColorTakesPlainTail()
    ensures Yields(InitFields([FloatArray(4)] + TRAILING_FIELDS, PLAIN_TAIL),
                   [ArrayValue([1.0, 1080.0, 1920.0, 0.9]), FloatValue(0.0), IntValue(0), IntValue(0), FloatValue(0.0)])
  {
    TrailingFieldsZero();
    PlainTailLiterals();
    PlainTailFloats();
    assert PLAIN_TAIL[4..] == [];
    ElidedStep(4, TRAILING_FIELDS, PLAIN_TAIL, [FloatLit(1.0), IntLit(1080), IntLit(1920), FloatLit(0.9)],
               [1.0, 1080.0, 1920.0, 0.9], [FloatValue(0.0), IntValue(0), IntValue(0), FloatValue(0.0)]);
    assert PadArray(4, [1.0, 1080.0, 1920.0, 0.9]).elems == [1.0, 1080.0, 1920.0, 0.9];
  }

  /** The braced triple fills baseColor and leaves its fourth element zero. */
  lemma BaseColorTakesBracedTriple()
    ensures Yields(InitFields([FloatArray(4), FloatArray(4)] + TRAILING_FIELDS, [Braced(BRACED_TRIPLE)] + PLAIN_TAIL),
                   [ArrayValue([1.0, 0.0, 0.0, 0.0]), ArrayValue([1.0, 1080.0, 1920.0, 0.9]),
                    FloatValue(0.0), IntValue(0), IntValue(0), FloatValue(0.0)])
  {
    BarColorTakesPlainTail();
    BracedTripleFloats();
    BracedStep(4, [FloatArray(4)] + TRAILING_FIELDS, BRACED_TRIPLE, PLAIN_TAIL, [1.0, 0.0, 0.0],
               [ArrayValue([1.0, 1080.0, 1920.0, 0.9]), FloatValue(0.0), IntValue(0), IntValue(0), FloatValue(0.0)]);
    assert [FloatArray(4)] + ([FloatArray(4)] + TRAILING_FIELDS) == [FloatArray(4), FloatArray(4)] + TRAILING_FIELDS;
    assert PadArray(4, [1.0, 0.0, 0.0]).elems == [1.0, 0.0, 0.0, 0.0];
  }

  /** The declared member list, split after `smoothing`. */
  lemma SettingsFieldsSplit()
    ensures SETTINGS_FIELDS == [BoolField] + ([UIntField, FloatArray(4), FloatArray(4)] + TRAILING_FIELDS)
    ensures COMMENTED_FIELDS == [BoolField] + ([UIntField] + ([FloatArray(3)] + TRAILING_FIELDS))
  {
  }

  /** DEFAULT_SETTINGS, split after its first initialiser. */
  lemma DefaultSettingsSplit()
    ensures DEFAULT_SETTINGS == [Expr(BoolLit(true))] + ([Expr(IntLit(0)), Braced(BRACED_TRIPLE)] + PLAIN_TAIL)
    ensures DEFAULT_SETTINGS == [Expr(BoolLit(true))] + ([Expr(IntLit(0))] + ([Braced(BRACED_TRIPLE)] + PLAIN_TAIL))
  {
  }

  /** The member values of DEFAULT_SETTINGS under the declared record, and under the commented one. */
  const DEFAULT_VALUES: seq<FieldValue> :=
    [BoolValue(true), IntValue(0), ArrayValue([1.0, 0.0, 0.0, 0.0]), ArrayValue([1.0, 1080.0, 1920.0, 0.9]),
     FloatValue(0.0), IntValue(0), IntValue(0), FloatValue(0.0)]
  const COMMENTED_VALUES: seq<FieldValue> :=
    [BoolValue(true), IntValue(0), ArrayValue([1.0, 0.0, 0.0]), FloatValue(1.0),
     IntValue(1080), IntValue(1920), FloatValue(0.9)]

  lemma ValuesSplit()
    ensures DEFAULT_VALUES == [BoolValue(true)] + [IntValue(0), ArrayValue([1.0, 0.0, 0.0, 0.0]),
      ArrayValue([1.0, 1080.0, 1920.0, 0.9]), FloatValue(0.0), IntValue(0), IntValue(0), FloatValue(0.0)]
    ensures COMMENTED_VALUES == [BoolValue(true)] + ([IntValue(0)] + ([ArrayValue([1.0, 0.0, 0.0])] +
      [FloatValue(1.0), IntValue(1080), IntValue(1920), FloatValue(0.9)]))
  {
  }

  /** The members after `smoothing`: modeIndex takes the plain 0. */
  lemma ModeIndexTakesZero()
    ensures Yields(InitFields([UIntField, FloatArray(4), FloatArray(4)] + TRAILING_FIELDS,
                              [Expr(IntLit(0)), Braced(BRACED_TRIPLE)] + PLAIN_TAIL),
                   [IntValue(0), ArrayValue([1.0, 0.0, 0.0, 0.0]), ArrayValue([1.0, 1080.0, 1920.0, 0.9]),
                    FloatValue(0.0), IntValue(0), IntValue(0), FloatValue(0.0)])
  {
    BaseColorTakesBracedTriple();
    var arrays := [FloatArray(4), FloatArray(4)] + TRAILING_FIELDS;
    var afterOne := [Braced(BRACED_TRIPLE)] + PLAIN_TAIL;
    var arrayValues := [ArrayValue([1.0, 0.0, 0.0, 0.0]), ArrayValue([1.0, 1080.0, 1920.0, 0.9]),
                        FloatValue(0.0), IntValue(0), IntValue(0), FloatValue(0.0)];
    ScalarStep(UIntField, arrays, IntLit(0), afterOne, IntValue(0), arrayValues);
    assert [UIntField] + arrays == [UIntField, FloatArray(4), FloatArray(4)] + TRAILING_FIELDS;
    assert [Expr(IntLit(0))] + afterOne == [Expr(IntLit(0)), Braced(BRACED_TRIPLE)] + PLAIN_TAIL;
  }

  /**
   * What DEFAULT_SETTINGS actually initialises against the declared record:
   * the braced triple fills baseColor (its fourth element zero), brace
   * elision hands the next four values to barColor, and the four members
   * after it are left zero.
   */
  lemma DefaultSettingsFields()
    ensures Yields(InitFields(SETTINGS_FIELDS, DEFAULT_SETTINGS), DEFAULT_VALUES)
  {
    ModeIndexTakesZero();
    ScalarStep(BoolField, [UIntField, FloatArray(4), FloatArray(4)] + TRAILING_FIELDS, BoolLit(true),
               [Expr(IntLit(0)), Braced(BRACED_TRIPLE)] + PLAIN_TAIL, BoolValue(true),
               [IntValue(0), ArrayValue([1.0, 0.0, 0.0, 0.0]), ArrayValue([1.0, 1080.0, 1920.0, 0.9]),
                FloatValue(0.0), IntValue(0), IntValue(0), FloatValue(0.0)]);
    SettingsFieldsSplit();
    DefaultSettingsSplit();
    ValuesSplit();
  }

  /** The record DEFAULT_SETTINGS builds. */
  lemma DefaultSettingsValue()
    ensures InitSettings(DEFAULT_SETTINGS) ==
      Some(Settings(true, 0, [1.0, 0.0, 0.0, 0.0], [1.0, 1080.0, 1920.0, 0.9], 0.0, 0, 0, 0.0))
  {
    DefaultSettingsFields();
  }

  /** Under the commented member list the four plain initialisers are the four trailing scalars. */
  lemma CommentedTrailingScalars()
    ensures Yields(InitFields(TRAILING_FIELDS, PLAIN_TAIL),
                   [FloatValue(1.0), IntValue(1080), IntValue(1920), FloatValue(0.9)])
  {
    var p3: seq<Initializer> := [Expr(FloatLit(0.9))];
    var p2 := [Expr(IntLit(1920))] + p3;
    var p1 := [Expr(IntLit(1080))] + p2;
    var t3: seq<FieldKind> := [FloatField];
    var t2 := [IntField] + t3;
    var t1 := [IntField] + t2;
    ScalarStep(FloatField, [], FloatLit(0.9), [], FloatValue(0.9), []);
    assert [FloatField] + [] == t3 && [Expr(FloatLit(0.9))] + [] == p3 && [FloatValue(0.9)] + [] == [FloatValue(0.9)];
    ScalarStep(IntField, t3, IntLit(1920), p3, IntValue(1920), [FloatValue(0.9)]);
    ScalarStep(IntField, t2, IntLit(1080), p2, IntValue(1080), [IntValue(1920)] + [FloatValue(0.9)]);
    ScalarStep(FloatField, t1, FloatLit(1.0), p1, FloatValue(1.0),
               [IntValue(1080)] + ([IntValue(1920)] + [FloatValue(0.9)]));
    assert [FloatField] + t1 == TRAILING_FIELDS && [Expr(FloatLit(1.0))] + p1 == PLAIN_TAIL;
    assert [FloatValue(1.0)] + ([IntValue(1080)] + ([IntValue(1920)] + [FloatValue(0.9)]))
        == [FloatValue(1.0), IntValue(1080), IntValue(1920), FloatValue(0.9)];
  }

  /** Under the commented member list the braced triple fills the three-element colour exactly. */
  lemma CommentedColorTakesBracedTriple()
    ensures Yields(InitFields([FloatArray(3)] + TRAILING_FIELDS, [Braced(BRACED_TRIPLE)] + PLAIN_TAIL),
                   [ArrayValue([1.0, 0.0, 0.0])] + [FloatValue(1.0), IntValue(1080), IntValue(1920), FloatValue(0.9)])
  {
    CommentedTrailingScalars();
    BracedTripleFloats();
    BracedStep(3, TRAILING_FIELDS, BRACED_TRIPLE, PLAIN_TAIL, [1.0, 0.0, 0.0],
               [FloatValue(1.0), IntValue(1080), IntValue(1920), FloatValue(0.9)]);
    assert PadArray(3, [1.0, 0.0, 0.0]).elems == [1.0, 0.0, 0.0];
  }

  /** The same list matches the member list of the comment above it one for one. */
  lemma DefaultSettingsFitCommentedFields()
    ensures Yields(InitFields(COMMENTED_FIELDS, DEFAULT_SETTINGS), COMMENTED_VALUES)
  {
    CommentedColorTakesBracedTriple();
    var afterTwo := [Braced(BRACED_TRIPLE)] + PLAIN_TAIL;
    var rest := [FloatArray(3)] + TRAILING_FIELDS;
    var restValues := [ArrayValue([1.0, 0.0, 0.0])] + [FloatValue(1.0), IntValue(1080), IntValue(1920), FloatValue(0.9)];
    ScalarStep(UIntField, rest, IntLit(0), afterTwo, IntValue(0), restValues);
    ScalarStep(BoolField, [UIntField] + rest, BoolLit(true), [Expr(IntLit(0))] + afterTwo,
               BoolValue(true), [IntValue(0)] + restValues);
    SettingsFieldsSplit();
    DefaultSettingsSplit();
    ValuesSplit();
  }

  /**
   * The initialiser list DEFAULT_SETTINGS evidently stands for, written for
   * the declared record: the same values, with an empty braced list for
   * barColor so that the four trailing scalars reach their own members.
   */
  const INTENDED_SETTINGS: seq<Initializer> :=
    [Expr(BoolLit(true)), Expr(IntLit(0)), Braced(BRACED_TRIPLE), Braced([])] + PLAIN_TAIL

  const INTENDED_VALUES: seq<FieldValue> :=
    [BoolValue(true), IntValue(0), ArrayValue([1.0, 0.0, 0.0, 0.0]), ArrayValue([0.0, 0.0, 0.0, 0.0]),
     FloatValue(1.0), IntValue(1080), IntValue(1920), FloatValue(0.9)]

  /** An empty braced list leaves barColor zero and hands the plain initialisers to the trailing scalars. */
  lemma EmptyBarColorKeepsTail()
    ensures Yields(InitFields([FloatArray(4)] + TRAILING_FIELDS, [Braced([])] + PLAIN_TAIL),
                   [ArrayValue([0.0, 0.0, 0.0, 0.0])] + [FloatValue(1.0), IntValue(1080), IntValue(1920), FloatValue(0.9)])
  {
    CommentedTrailingScalars();
    assert FloatsOf([]) == Some([]);
    BracedStep(4, TRAILING_FIELDS, [], PLAIN_TAIL, [],
               [FloatValue(1.0), IntValue(1080), IntValue(1920), FloatValue(0.9)]);
    assert PadArray(4, []).elems == [0.0, 0.0, 0.0, 0.0];
  }

  lemma IntendedColorsSplit()
    ensures Yields(InitFields([FloatArray(4), FloatArray(4)] + TRAILING_FIELDS, [Braced(BRACED_TRIPLE), Braced([])] + PLAIN_TAIL),
                   [ArrayValue([1.0, 0.0, 0.0, 0.0]), ArrayValue([0.0, 0.0, 0.0, 0.0]),
                    FloatValue(1.0), IntValue(1080), IntValue(1920), FloatValue(0.9)])
  {
    EmptyBarColorKeepsTail();
    BracedTripleFloats();
    var tailValues := [ArrayValue([0.0, 0.0, 0.0, 0.0])] + [FloatValue(1.0), IntValue(1080), IntValue(1920), FloatValue(0.9)];
    BracedStep(4, [FloatArray(4)] + TRAILING_FIELDS, BRACED_TRIPLE, [Braced([])] + PLAIN_TAIL, [1.0, 0.0, 0.0], tailValues);
    assert [FloatArray(4)] + ([FloatArray(4)] + TRAILING_FIELDS) == [FloatArray(4), FloatArray(4)] + TRAILING_FIELDS;
    assert [Braced(BRACED_TRIPLE)] + ([Braced([])] + PLAIN_TAIL) == [Braced(BRACED_TRIPLE), Braced([])] + PLAIN_TAIL;
    assert PadArray(4, [1.0, 0.0, 0.0]).elems == [1.0, 0.0, 0.0, 0.0];
  }

  /** The corrected list after `smoothing`: modeIndex takes the plain 0. */
  lemma IntendedModeIndex()
    ensures Yields(InitFields([UIntField] + ([FloatArray(4), FloatArray(4)] + TRAILING_FIELDS),
                              [Expr(IntLit(0))] + ([Braced(BRACED_TRIPLE), Braced([])] + PLAIN_TAIL)),
                   [IntValue(0)] + INTENDED_VALUES[2..])
  {
    IntendedColorsSplit();
    assert INTENDED_VALUES[2..] == [ArrayValue([1.0, 0.0, 0.0, 0.0]), ArrayValue([0.0, 0.0, 0.0, 0.0]),
                                    FloatValue(1.0), IntValue(1080), IntValue(1920), FloatValue(0.9)];
    ScalarStep(UIntField, [FloatArray(4), FloatArray(4)] + TRAILING_FIELDS, IntLit(0),
               [Braced(BRACED_TRIPLE), Braced([])] + PLAIN_TAIL, IntValue(0), INTENDED_VALUES[2..]);
  }

  lemma IntendedSplit()
    ensures SETTINGS_FIELDS == [BoolField] + ([UIntField] + ([FloatArray(4), FloatArray(4)] + TRAILING_FIELDS))
    ensures INTENDED_SETTINGS == [Expr(BoolLit(true))] + ([Expr(IntLit(0))] + ([Braced(BRACED_TRIPLE), Braced([])] + PLAIN_TAIL))
    ensures INTENDED_VALUES == [BoolValue(true)] + ([IntValue(0)] + INTENDED_VALUES[2..])
  {
  }

  /** The corrected list fills the declared record member by member. */
  lemma IntendedSettingsFields()
    ensures Yields(InitFields(SETTINGS_FIELDS, INTENDED_SETTINGS), INTENDED_VALUES)
  {
    IntendedModeIndex();
    ScalarStep(BoolField, [UIntField] + ([FloatArray(4), FloatArray(4)] + TRAILING_FIELDS), BoolLit(true),
               [Expr(IntLit(0))] + ([Braced(BRACED_TRIPLE), Braced([])] + PLAIN_TAIL),
               BoolValue(true), [IntValue(0)] + INTENDED_VALUES[2..]);
    IntendedSplit();
  }

  /**
   * The settings the corrected list builds: every scalar member receives the
   * value DEFAULT_SETTINGS gives it under the member list of its comment, so
   * the window is 1920 by 1080.
   */
  function IntendedSettings(): (s: Settings)
    ensures InitSettings(INTENDED_SETTINGS) == Some(s)
    ensures s.smoothing == COMMENTED_VALUES[0].b && s.modeIndex == COMMENTED_VALUES[1].i
    ensures s.baseColor[..3] == COMMENTED_VALUES[2].elems && s.barHeightScale == COMMENTED_VALUES[3].f
    ensures s.windowHeight == COMMENTED_VALUES[4].i && s.windowWidth == COMMENTED_VALUES[5].i
    ensures s.smoothingCoef == COMMENTED_VALUES[6].f
    ensures s.windowWidth == 1920 && s.windowHeight == 1080
  {
    IntendedSettingsFields();
    InitSettings(INTENDED_SETTINGS).value
  }

  /** The settings as DEFAULT_SETTINGS actually initialises them: the window size members are zero. */
  function DefaultSettings(): (s: Settings)
    ensures InitSettings(DEFAULT_SETTINGS) == Some(s)
    ensures s.smoothing && s.modeIndex == DEFAULT_M && s.windowWidth == 0 && s.windowHeight == 0
  {
    DefaultSettingsValue();
    InitSettings(DEFAULT_SETTINGS).value
  }
}
