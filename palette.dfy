/**
 * The colour palette of the audio manager: the eleven colour codes that
 * `AudioManager::SetColorFunction` cycles through and the colour
 * `AudioManager::GetColor` picks for a bar from the current code, the bar
 * index and quantities derived from the bar's magnitude.
 */
module Palette {

  /** An 8-bit colour channel. */
  type byte = x: int | 0 <= x < 256

  /** A byte computed modulo 255, so never 255 itself. */
  type Residue = x: byte | x < 255

  /** An RGBA colour; a colour built from three channels is opaque. */
  datatype Rgba = Rgba(r: byte, g: byte, b: byte, a: byte)

  function Rgb(r: byte, g: byte, b: byte): (c: Rgba)
    ensures c.r == r && c.g == g && c.b == b && c.a == 255
  {
    Rgba(r, g, b, 255)
  }

  const WHITE: Rgba := Rgb(255, 255, 255)

  /** The colour codes in the order the cycle visits them. */
  const COLOR_CODES: seq<char> := ['r', 'g', 'b', '1', '2', '3', '4', '5', '6', '7', '8']

  /** The colour code every audio manager starts with. */
  const INITIAL_CODE: char := '\0'

  // ---------------------------------------------------------------------
  // The colour cycle
  // ---------------------------------------------------------------------

  /** The code `SetColorFunction` moves to from `c`. */
  function NextColor(c: char): char
  {
    match c
    case 'r' => 'g'
    case 'g' => 'b'
    case 'b' => '1'
    case '1' => '2'
    case '2' => '3'
    case '3' => '4'
    case '4' => '5'
    case '5' => '6'
    case '6' => '7'
    case '7' => '8'
    case '8' => 'r'
    case _ => 'r'
  }

  /** After a call the colour is always one of the codes; anything that is not a code goes to red. */
  lemma NextColorInCodes(c: char)
    ensures NextColor(c) in COLOR_CODES
    ensures c !in COLOR_CODES ==> NextColor(c) == 'r'
  {
  }

  /** The codes are pairwise distinct, so a code has one position in the cycle. */
  lemma CodesDistinct()
    ensures forall j, k :: 0 <= j < k < |COLOR_CODES| ==> COLOR_CODES[j] != COLOR_CODES[k]
  {
  }

  /** Each code moves to the one after it, and the last back to the first. */
  lemma NextColorSteps(k: nat)
    requires k < |COLOR_CODES|
    ensures NextColor(COLOR_CODES[k]) == COLOR_CODES[(k + 1) % |COLOR_CODES|]
  {
  }

  lemma ModSucc(x: nat)
    ensures (x % 11 + 1) % 11 == (x + 1) % 11
  {
    var q := x / 11;
    assert x == 11 * q + x % 11;
    if x % 11 == 10 {
      assert x + 1 == 11 * (q + 1);
    } else {
      assert x + 1 == 11 * q + (x % 11 + 1);
    }
  }

  /** `n` successive calls of `SetColorFunction`, starting from `c`. */
  function Cycle(c: char, n: nat): char
  {
    if n == 0 then c else NextColor(Cycle(c, n - 1))
  }

  /** From a code, n calls advance n places around the cycle. */
  lemma {:induction false} CycleAdvances(k: nat, n: nat)
    requires k < |COLOR_CODES|
    ensures Cycle(COLOR_CODES[k], n) == COLOR_CODES[(k + n) % |COLOR_CODES|]
  {
    assert |COLOR_CODES| == 11;
    if n == 0 {
      assert (k + n) % |COLOR_CODES| == k;
      assert Cycle(COLOR_CODES[k], n) == COLOR_CODES[k];
    } else {
      CycleAdvances(k, n - 1);
      var j := (k + n - 1) % |COLOR_CODES|;
      NextColorSteps(j);
      ModSucc(k + n - 1);
      calc {
        Cycle(COLOR_CODES[k], n);
        NextColor(Cycle(COLOR_CODES[k], n - 1));
        NextColor(COLOR_CODES[j]);
        COLOR_CODES[(j + 1) % |COLOR_CODES|];
        { assert (j + 1) % |COLOR_CODES| == (k + n) % |COLOR_CODES|; }
        COLOR_CODES[(k + n) % |COLOR_CODES|];
      }
    }
  }

  /** The position of a code in the cycle. */
  lemma CodePosition(c: char) returns (k: nat)
    requires c in COLOR_CODES
    ensures k < |COLOR_CODES| && COLOR_CODES[k] == c
  {
    k :| 0 <= k < |COLOR_CODES| && COLOR_CODES[k] == c;
  }

  /** Eleven calls bring every code back to itself. */
  lemma CycleReturns(c: char)
    requires c in COLOR_CODES
    ensures Cycle(c, |COLOR_CODES|) == c
  {
    var k := CodePosition(c);
    CycleAdvances(k, |COLOR_CODES|);
    assert (k + |COLOR_CODES|) % |COLOR_CODES| == k;
  }

  /** No smaller positive number of calls does: the period is exactly 11. */
  lemma CycleMinimal(c: char, n: nat)
    requires c in COLOR_CODES && 0 < n < |COLOR_CODES|
    ensures Cycle(c, n) != c
  {
    var k := CodePosition(c);
    CycleAdvances(k, n);
    var j := (k + n) % |COLOR_CODES|;
    assert j != k;
    CodesDistinct();
    assert COLOR_CODES[j] != COLOR_CODES[k];
  }

  /** From any code at all, including the initial one, one call lands on a code and the first call after a non-code gives red. */
  lemma CycleEntersCodes(c: char, n: nat)
    requires n > 0
    ensures Cycle(c, n) in COLOR_CODES
    ensures c !in COLOR_CODES ==> Cycle(c, 1) == 'r'
  {
    NextColorInCodes(Cycle(c, n - 1));
    NextColorInCodes(c);
  }

  // ---------------------------------------------------------------------
  // GetColor
  // ---------------------------------------------------------------------

  /**
   * The parts of a bar's colour that come from floating-point arithmetic on
   * its magnitude: `coly` (the magnitude scaled by the window height, plus
   * one, modulo 255), `fire` (the product of index and magnitude truncated
   * to a byte) and the three channels of code '8''s sine/cosine wave, each
   * already converted to a byte.
   */
  datatype Shades = Shades(coly: Residue, fire: byte, waveRed: byte, waveGreen: byte, waveBlue: byte)

  /** The index-driven channel: (i + 1) modulo 255. */
  function Colx(i: nat): (x: byte)
    ensures x < 255 && x == (i + 1) % 255
  {
    (i + 1) % 255
  }

  function Pow2(k: nat): (p: nat)
    ensures p > 0
  {
    if k == 0 then 1 else 2 * Pow2(k - 1)
  }

  /** Bitwise exclusive or, bit by bit from the least significant. */
  function BitXor(x: nat, y: nat): nat
    decreases x + y
  {
    if x == 0 && y == 0 then 0
    else 2 * BitXor(x / 2, y / 2) + (if x % 2 == y % 2 then 0 else 1)
  }

  /** Exclusive or of k-bit numbers is a k-bit number. */
  lemma {:induction false} BitXorBound(x: nat, y: nat, k: nat)
    requires x < Pow2(k) && y < Pow2(k)
    ensures BitXor(x, y) < Pow2(k)
    decreases k
  {
    if !(x == 0 && y == 0) {
      BitXorBound(x / 2, y / 2, k - 1);
    }
  }

  /** Exclusive or with x undoes exclusive or with x. */
  lemma {:induction false} BitXorCancels(x: nat, y: nat)
    ensures BitXor(BitXor(x, y), x) == y
    decreases x + y
  {
    if !(x == 0 && y == 0) {
      BitXorCancels(x / 2, y / 2);
      var z := BitXor(x, y);
      assert z / 2 == BitXor(x / 2, y / 2);
      assert z % 2 == (if x % 2 == y % 2 then 0 else 1);
    }
  }

  /** The `^` of two bytes. */
  function Xor(x: byte, y: byte): (z: byte)
    ensures z == BitXor(x, y)
  {
    assert Pow2(8) == 256;
    BitXorBound(x, y, 8);
    BitXor(x, y)
  }

  /** The colour of bar `i` under colour code `code`. */
  function GetColor(code: char, i: nat, s: Shades): (c: Rgba)
    ensures c.a == 255
    ensures code !in COLOR_CODES ==> c == WHITE
  {
    var colx := Colx(i);
    match code
    case 'r' => Rgb(255, 0, 0)
    case 'g' => Rgb(0, 255, 0)
    case 'b' => Rgb(0, 0, 255)
    case '1' => Rgb(255 - colx, 0, colx)
    case '2' => Rgb(255 - s.coly, 0, s.coly)
    case '3' => Rgb(255 - s.coly, colx, 0)
    case '4' => Rgb(colx, 255 - s.coly, s.coly)
    case '5' => Rgb(colx, s.coly, 255)
    case '6' => Rgb(Xor(colx, s.coly), colx, s.coly)
    case '7' => Rgb(s.fire % 255, s.coly, colx)
    case '8' => Rgb(s.waveRed, s.waveGreen, s.waveBlue)
    case _ => WHITE
  }

  /**
   * The index-driven fades repeat every 255 bars: bars i and i + 255 of the
   * same magnitude get the same colour under every code except '7' and '8',
   * whose fire and wave channels depend on the index in other ways.
   */
  lemma GetColorPeriodic(code: char, i: nat, s: Shades)
    requires code != '7' && code != '8'
    ensures GetColor(code, i + 255, s) == GetColor(code, i, s)
  {
    assert Colx(i + 255) == Colx(i);
  }

  /** Code '1' fades from red to blue: red and blue always sum to 255 and blue is (i + 1) mod 255. */
  lemma RedBlueFade(i: nat, s: Shades)
    ensures GetColor('1', i, s).r + GetColor('1', i, s).b == 255
    ensures GetColor('1', i, s).g == 0 && GetColor('1', i, s).b == (i + 1) % 255
  {
  }

  /** Code '6': the red channel is green XOR blue, so XOR-ing it with green gives back blue. */
  lemma XorMashRecoversBlue(i: nat, s: Shades)
    ensures Xor(GetColor('6', i, s).r, GetColor('6', i, s).g) == GetColor('6', i, s).b
  {
    BitXorCancels(Colx(i), s.coly);
  }

  /** The colours that do not depend on the magnitude at all. */
  lemma MagnitudeFreeColors(code: char, i: nat, s: Shades, t: Shades)
    requires code in ['r', 'g', 'b', '1'] || code !in COLOR_CODES
    ensures GetColor(code, i, s) == GetColor(code, i, t)
  {
  }

  /** Before the first `SetColorFunction` call every bar is white. */
  lemma InitialColorIsWhite(i: nat, s: Shades)
    ensures GetColor(INITIAL_CODE, i, s) == WHITE
  {
  }
}
