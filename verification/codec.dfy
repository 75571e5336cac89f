/**
  The opening book's two-byte move encoding (util/BookHandler.js).

  A move text such as `e2e4` or `e7e8q` is packed into 16 bits: the origin
  square in the low 6 bits, the destination square in the next 6 and the
  promotion piece in the top 4. A square `<file><rank>` is numbered
  `file * 8 + rank` with files a..h as 0..7 and ranks 1..8, so squares run
  1..64; 64 does not fit in 6 bits and is stored as 0, which decoding reads
  back as 64. Bit lists are kept least significant bit first, as the source
  keeps them after `reverse()`.
 */
module MoveCodec {
  import opened Js

  type Bit = b: int | 0 <= b <= 1
  type Byte = b: int | 0 <= b < 256

  // ---------------------------------------------------------------------------
  // Bits and bytes

  function Pow2(k: nat): (p: nat)
    ensures p >= 1
  {
    if k == 0 then 1 else 2 * Pow2(k - 1)
  }

  /** The low `width` bits of `n`, least significant first (`bitwise.byte.read(n).reverse()`, cut to `width`). */
  function ToBits(n: nat, width: nat): (bits: seq<Bit>)
    ensures |bits| == width
  {
    if width == 0 then [] else [n % 2] + ToBits(n / 2, width - 1)
  }

  /** The number a bit list stands for, least significant bit first (`bitArray[0] * 1 + bitArray[1] * 2 + ...`). */
  function FromBits(bits: seq<Bit>): nat
  {
    if bits == [] then 0 else bits[0] + 2 * FromBits(bits[1..])
  }

  /** A buffer read as one big-endian number. */
  function BigEndian(buf: seq<Byte>): nat
  {
    if buf == [] then 0 else BigEndian(buf[..|buf| - 1]) * 256 + buf[|buf| - 1]
  }

  /** `bitwise.buffer.read(buf).reverse()`: every bit of the buffer, least significant first. */
  function BufferBits(buf: seq<Byte>): (bits: seq<Bit>)
    ensures |bits| == 8 * |buf|
  {
    ToBits(BigEndian(buf), 8 * |buf|)
  }

  /** `bitwise.buffer.create(bits.reverse())` for a 16-bit list: the two bytes of its value, high byte first. */
  function TwoBytes(bits: seq<Bit>): (buf: seq<Byte>)
    requires |bits| == 16
    ensures |buf| == 2 && BigEndian(buf) == FromBits(bits)
  {
    FromBitsBound(bits);
    Pow2Values();
    var v := FromBits(bits);
    var buf := [v / 256, v % 256];
    BigEndianTwo(buf);
    buf
  }

  /** A two-byte buffer's value: high byte times 256 plus low byte. */
  lemma BigEndianTwo(buf: seq<Byte>)
    requires |buf| == 2
    ensures BigEndian(buf) == buf[0] as int * 256 + buf[1] as int
  {
    var high := buf[..1];
    assert BigEndian(buf) == BigEndian(high) * 256 + buf[1];
    assert high[..0] == [];
    assert BigEndian(high) == BigEndian([]) * 256 + buf[0];
  }

  /** `n` halved `k` times: the bits of `n` above the low `k`. */
  function Shift(n: nat, k: nat): nat
  {
    if k == 0 then n else Shift(n / 2, k - 1)
  }

  lemma Pow2Values()
    ensures Pow2(4) == 16 && Pow2(6) == 64 && Pow2(12) == 4096 && Pow2(16) == 65536
  {
    assert Pow2(4) == 16;
    assert Pow2(6) == 64;
    assert Pow2(12) == 4096;
    assert Pow2(16) == 65536;
  }

  lemma MulAtLeast(k: int, d: int)
    requires k >= 1 && d > 0
    ensures k * d >= d
  {
    assert k * d == d + (k - 1) * d;
  }

  /** Euclidean division is determined by the quotient-remainder equation. */
  lemma DivModUnique(n: int, d: int, q: int, r: int)
    requires d > 0 && 0 <= r < d && n == q * d + r
    ensures n / d == q && n % d == r
  {
    var q', r' := n / d, n % d;
    assert n == q' * d + r';
    var k := q - q';
    assert k * d == r' - r;
    if k >= 1 {
      MulAtLeast(k, d);
    } else if k <= -1 {
      MulAtLeast(-k, d);
    }
  }

  lemma DivDiv(n: nat, x: nat, y: nat)
    requires x > 0 && y > 0
    ensures n / x / y == n / (x * y)
  {
    var q, s := n / x / y, n / x % y;
    var r := n % x;
    assert n / x == q * y + s;
    assert n == (q * y + s) * x + r;
    assert (q * y + s) * x == q * (x * y) + s * x;
    assert s * x + r < x * y by {
      MulAtLeast(y - s, x);
      assert (y - s) * x == x * y - s * x;
    }
    DivModUnique(n, x * y, q, s * x + r);
  }

  lemma {:induction false} ShiftDiv(n: nat, k: nat)
    ensures Shift(n, k) == n / Pow2(k)
  {
    if k > 0 {
      ShiftDiv(n / 2, k - 1);
      DivDiv(n, 2, Pow2(k - 1));
    }
  }

  lemma {:induction false} FromBitsBound(bits: seq<Bit>)
    ensures FromBits(bits) < Pow2(|bits|)
  {
    if bits != [] {
      FromBitsBound(bits[1..]);
    }
  }

  /** Reading back the low bits of a number gives the number modulo the width. */
  lemma {:induction false} FromToBits(n: nat, width: nat)
    ensures FromBits(ToBits(n, width)) == n % Pow2(width)
  {
    if width > 0 {
      FromToBits(n / 2, width - 1);
      var rest := ToBits(n / 2, width - 1);
      assert ToBits(n, width) == [n % 2] + rest;
      assert ([n % 2] + rest)[1..] == rest;
      ModDouble(n, Pow2(width - 1));
    }
  }

  /** The remainder modulo `2 * p`: the lowest bit, then twice the remainder of the half modulo `p`. */
  lemma ModDouble(n: nat, p: nat)
    requires p > 0
    ensures n % (2 * p) == n % 2 + 2 * (n / 2 % p)
  {
    var q, s := n / 2 / p, n / 2 % p;
    assert n / 2 == q * p + s;
    assert n == q * (2 * p) + (2 * s + n % 2);
    DivModUnique(n, 2 * p, q, 2 * s + n % 2);
  }

  /** The low `a + b` bits of `n` are its low `a` bits followed by the low `b` bits of what lies above them. */
  lemma {:induction false} ToBitsSplit(n: nat, a: nat, b: nat)
    ensures ToBits(n, a + b) == ToBits(n, a) + ToBits(Shift(n, a), b)
  {
    if a > 0 {
      ToBitsSplit(n / 2, a - 1, b);
      assert ToBits(n, a + b) == [n % 2] + ToBits(n / 2, (a - 1) + b);
    }
  }

  lemma Distribute(x: int, p: int, y: int)
    ensures 2 * (x + p * y) == 2 * x + (2 * p) * y
  {
  }

  /** The value of a concatenation: the second list's bits sit above the first's. */
  lemma {:induction false} FromBitsAppend(a: seq<Bit>, b: seq<Bit>)
    ensures FromBits(a + b) == FromBits(a) + Pow2(|a|) * FromBits(b)
  {
    if a == [] {
      assert a + b == b;
    } else {
      var p := Pow2(|a| - 1);
      var x, y := FromBits(a[1..]), FromBits(b);
      FromBitsAppend(a[1..], b);
      assert (a + b)[1..] == a[1..] + b;
      assert FromBits(a + b) == a[0] + 2 * (x + p * y);
      Distribute(x, p, y);
    }
  }

  /** A bit list is the low bits of its own value. */
  lemma {:induction false} BitsOfValue(bits: seq<Bit>)
    ensures bits == ToBits(FromBits(bits), |bits|)
  {
    if bits != [] {
      BitsOfValue(bits[1..]);
      DivModUnique(FromBits(bits), 2, FromBits(bits[1..]), bits[0]);
    }
  }

  /** A bit list is determined by its value: it is the low bits of any number with the same remainder. */
  lemma BitsDetermined(bits: seq<Bit>, n: nat)
    requires FromBits(bits) == n % Pow2(|bits|)
    ensures bits == ToBits(n, |bits|)
  {
    BitsOfValue(bits);
    FromToBits(n, |bits|);
    BitsOfValue(ToBits(n, |bits|));
  }

  // ---------------------------------------------------------------------------
  // Squares

  /** `fileCorrespondence`: files a..h are 0..7; any other text is `undefined`. */
  function FileNumber(text: string): (r: Option<nat>)
    ensures r.Some? ==> r.value < 8
  {
    if |text| == 1 && 'a' <= text[0] <= 'h' then Some(text[0] as int - 'a' as int) else None
  }

  /** `Object.entries(fileCorrespondence)[n][0]`: the letter of file `n`. */
  function FileLetter(n: nat): (c: char)
    requires n < 8
    ensures 'a' <= c <= 'h' && c as int - 'a' as int == n
  {
    "abcdefgh"[n]
  }

  /** `parseInt` of the one-character rank text (see `RankNumberIsParseInt`). */
  function RankNumber(text: string): Option<nat>
  {
    if |text| == 1 && IsDigit(text[0]) then Some(DigitValue(text[0])) else None
  }

  /** On texts of at most one character `parseInt` reads a digit's value and anything else as `NaN`. */
  lemma RankNumberIsParseInt(text: string)
    requires |text| <= 1
    ensures ParseInt(text) == match RankNumber(text) case Some(n) => Some(n as int) case None => None
  {
    if |text| == 1 {
      var c := text[0];
      if IsDigit(c) {
        ParseDigits(text);
        TrimStartKeeps(text);
        assert text[..0] == [];
      } else if IsSpace(c) {
        assert TrimStart(text) == TrimStart([]);
      } else {
        TrimStartKeeps(text);
        assert text[1..] == [];
      }
    }
  }

  predicate ValidSquare(sq: string) {
    |sq| == 2 && 'a' <= sq[0] <= 'h' && '1' <= sq[1] <= '8'
  }

  /**
    `positionToBitArray` before the bits are taken: the square's number
    `file * 8 + rank`. `None` stands for the inputs on which the source hands
    `NaN` to the bit library (an unknown file letter or a rank that is not a digit).
   */
  function SquareIndex(sq: string): (r: Option<nat>)
    ensures ValidSquare(sq) ==> r.Some? && 1 <= r.value <= 64
    ensures ValidSquare(sq) ==> r.value == (sq[0] as int - 'a' as int) * 8 + (sq[1] as int - '0' as int)
  {
    var file := FileNumber(Slice(sq, 0, 1));
    var rank := RankNumber(Slice(sq, 1, 2));
    if file.None? || rank.None? then None
    else Some(file.value * 8 + rank.value)
  }

  /**
    `bitArrayToPosition`: any six bits name a valid square; the raw value 0
    stands for square 64 (h8).
   */
  function BitsToSquare(bits: seq<Bit>): (sq: string)
    requires |bits| == 6
    ensures ValidSquare(sq)
    ensures SquareIndex(sq) == Some(if FromBits(bits) == 0 then 64 else FromBits(bits))
  {
    FromBitsBound(bits);
    Pow2Values();
    var raw := FromBits(bits);
    var number := if raw == 0 then 64 else raw;
    var fileNumber := (number - 1) / 8;
    var rank := number - fileNumber * 8;
    var sq := [FileLetter(fileNumber)] + IntToString(rank);
    assert sq == [FileLetter(fileNumber), DigitChar(rank)];
    assert Slice(sq, 0, 1) == [sq[0]] && Slice(sq, 1, 2) == [sq[1]];
    sq
  }

  /** Different valid squares have different numbers. */
  lemma SquareIndexInjective(a: string, b: string)
    requires ValidSquare(a) && ValidSquare(b)
    requires SquareIndex(a) == SquareIndex(b)
    ensures a == b
  {
    var n := SquareIndex(a).value - 1;
    var fa, ra := a[0] as int - 'a' as int, a[1] as int - '1' as int;
    var fb, rb := b[0] as int - 'a' as int, b[1] as int - '1' as int;
    DivModUnique(n, 8, fa, ra);
    DivModUnique(n, 8, fb, rb);
    assert a == [a[0], a[1]] && b == [b[0], b[1]];
  }

  /** Six bits of a valid square's number decode to the same square. */
  lemma SquareRoundTrip(sq: string)
    requires ValidSquare(sq)
    ensures BitsToSquare(ToBits(SquareIndex(sq).value, 6)) == sq
  {
    var idx := SquareIndex(sq).value;
    FromToBits(idx, 6);
    Pow2Values();
    if idx < 64 {
      DivModUnique(idx, 64, 0, idx);
    } else {
      DivModUnique(idx, 64, 1, 0);
    }
    SquareIndexInjective(BitsToSquare(ToBits(idx, 6)), sq);
  }

  // ---------------------------------------------------------------------------
  // Promotion

  /** `promotionResult`: the code of a promotion name; `undefined` for any other text. */
  function PromotionCode(name: string): (r: Option<nat>)
    ensures r.Some? ==> r.value <= 4
  {
    if name == "nothing" then Some(0)
    else if name == "n" then Some(1)
    else if name == "b" then Some(2)
    else if name == "r" then Some(3)
    else if name == "q" then Some(4)
    else None
  }

  /** `Object.entries(promotionResult)[code][0]`: codes past the table have no entry, and reading one throws. */
  function PromotionName(code: nat): (r: Option<string>)
    ensures r.Some? <==> code <= 4
    ensures r.Some? ==> PromotionCode(r.value) == Some(code)
  {
    if code == 0 then Some("nothing")
    else if code == 1 then Some("n")
    else if code == 2 then Some("b")
    else if code == 3 then Some("r")
    else if code == 4 then Some("q")
    else None
  }

  // ---------------------------------------------------------------------------
  // Moves

  /** A move text the book can hold: two valid squares and an optional n, b, r or q. */
  predicate ValidMoveText(m: string) {
    && (|m| == 4 || |m| == 5)
    && ValidSquare(m[..2])
    && ValidSquare(m[2..4])
    && (|m| == 5 ==> m[4] in "nbrq")
  }

  /** The 16-bit value a move packs to: promotion code on top, destination, origin in the low bits. */
  function PackedValue(from: nat, to: nat, promotion: nat): nat
  {
    promotion * 4096 + (to % 64) * 64 + from % 64
  }

  /** The name `convertMoveToBuffer` looks up: the fifth character if there is one, else "nothing". */
  function PromotionText(m: string): string
  {
    if |m| > 4 then [m[4]] else "nothing"
  }

  /**
    `convertMoveToBuffer`: `None` where the source hands an `undefined` or
    `NaN` to the bit library (an unknown square or promotion letter).
   */
  function MoveToBuffer(m: string): (r: Option<seq<Byte>>)
    ensures r.Some? <==>
      SquareIndex(Slice(m, 0, 2)).Some? && SquareIndex(Slice(m, 2, 4)).Some? && PromotionCode(PromotionText(m)).Some?
    ensures r.Some? ==> |r.value| == 2
    ensures r.Some? ==>
      BigEndian(r.value) == PackedValue(SquareIndex(Slice(m, 0, 2)).value,
                                        SquareIndex(Slice(m, 2, 4)).value,
                                        PromotionCode(PromotionText(m)).value)
  {
    var from := SquareIndex(Slice(m, 0, 2));
    var to := SquareIndex(Slice(m, 2, 4));
    var promotion := PromotionCode(PromotionText(m));
    if from.None? || to.None? || promotion.None? then None
    else
      var total := ToBits(from.value, 6) + ToBits(to.value, 6) + ToBits(promotion.value, 4);
      PackedBits(from.value, to.value, promotion.value);
      Some(TwoBytes(total))
  }

  /** The concatenated bit fields stand for the packed value. */
  lemma PackedBits(from: nat, to: nat, promotion: nat)
    requires promotion <= 4
    ensures FromBits(ToBits(from, 6) + ToBits(to, 6) + ToBits(promotion, 4)) == PackedValue(from, to, promotion)
  {
    var a, b, c := ToBits(from, 6), ToBits(to, 6), ToBits(promotion, 4);
    Pow2Values();
    FromToBits(from, 6);
    FromToBits(to, 6);
    FromToBits(promotion, 4);
    DivModUnique(promotion, 16, 0, promotion);
    var x, y := FromBits(a), FromBits(b);
    assert x == from % 64 && y == to % 64 && FromBits(c) == promotion;
    FromBitsAppend(a, b);
    assert FromBits(a + b) == x + 64 * y;
    FromBitsAppend(a + b, c);
    assert |a + b| == 12;
  }

  /** The three bit fields of a two-byte buffer hold the value's low 6 bits, the next 6 and the top 4. */
  lemma BufferFields(buf: seq<Byte>)
    requires |buf| == 2
    ensures BigEndian(buf) < 65536
    ensures BufferBits(buf) == ToBits(BigEndian(buf), 6) + ToBits(BigEndian(buf) / 64, 6) + ToBits(BigEndian(buf) / 4096, 4)
    ensures FromBits(BufferBits(buf)[12..16]) == BigEndian(buf) / 4096
  {
    var v := BigEndian(buf);
    BigEndianTwo(buf);
    SixteenBitFields(v);
    var low, mid, top := ToBits(v, 6), ToBits(v / 64, 6), ToBits(v / 4096, 4);
    assert BufferBits(buf) == low + mid + top;
    assert (low + mid + top)[12..16] == top;
  }

  /** The low sixteen bits of a number below 65536, cut into fields of 6, 6 and 4 bits. */
  lemma SixteenBitFields(v: nat)
    requires v < 65536
    ensures ToBits(v, 16) == ToBits(v, 6) + ToBits(v / 64, 6) + ToBits(v / 4096, 4)
    ensures FromBits(ToBits(v / 4096, 4)) == v / 4096
  {
    Pow2Values();
    ToBitsSplit(v, 6, 10);
    ShiftDiv(v, 6);
    ToBitsSplit(v / 64, 6, 4);
    ShiftDiv(v / 64, 6);
    DivDiv(v, 64, 64);
    FromToBits(v / 4096, 4);
    TopField(v);
  }

  lemma TopField(v: nat)
    requires v < 65536
    ensures v / 4096 % 16 == v / 4096
  {
    var q := v / 4096;
    DivModUnique(q, 16, 0, q);
  }

  /**
    `convertBufferToMove` on the two bytes the book stores per move: origin,
    destination and promotion read from the low, middle and top bit fields;
    promotion code 0 adds nothing to the text, and codes 5..15 throw (`None`).
   */
  function BufferToMove(buf: seq<Byte>): (r: Option<string>)
    requires |buf| == 2
    ensures r.Some? <==> BigEndian(buf) / 4096 <= 4
    ensures r.Some? ==> ValidMoveText(r.value)
  {
    var bits := BufferBits(buf);
    var from := BitsToSquare(bits[0..6]);
    var to := BitsToSquare(bits[6..12]);
    BufferFields(buf);
    match PromotionName(FromBits(bits[12..16]))
    case None => None
    case Some(name) =>
      SuffixLetter(FromBits(bits[12..16]));
      MoveTextValid(from, to, PromotionSuffix(name));
      Some(from + to + PromotionSuffix(name))
  }

  /** What a promotion code adds to a move text: nothing, or one of the letters n, b, r, q. */
  lemma SuffixLetter(code: nat)
    requires code <= 4
    ensures var suffix := PromotionSuffix(PromotionName(code).value);
      suffix == "" || (|suffix| == 1 && suffix[0] in "nbrq")
  {
  }

  /** Two valid squares and an optional promotion letter make a valid move text. */
  lemma MoveTextValid(from: string, to: string, suffix: string)
    requires ValidSquare(from) && ValidSquare(to)
    requires suffix == "" || (|suffix| == 1 && suffix[0] in "nbrq")
    ensures ValidMoveText(from + to + suffix)
  {
    var text := from + to + suffix;
    assert text[..2] == from && text[2..4] == to;
  }

  /** Unpacking a packed value gives back the three fields. */
  lemma UnpackPacked(from: nat, to: nat, promotion: nat)
    requires promotion <= 4
    ensures PackedValue(from, to, promotion) % 64 == from % 64
    ensures PackedValue(from, to, promotion) / 64 % 64 == to % 64
    ensures PackedValue(from, to, promotion) / 4096 == promotion
  {
    var v := PackedValue(from, to, promotion);
    var high := promotion * 64 + to % 64;
    assert v == high * 64 + from % 64;
    DivModUnique(v, 64, high, from % 64);
    DivModUnique(high, 64, promotion, to % 64);
    DivDiv(v, 64, 64);
  }

  /** What a promotion name adds to the move text: nothing for "nothing", the letter otherwise. */
  function PromotionSuffix(name: string): string
  {
    if name == "nothing" then "" else name
  }

  /** A decodable buffer reads as its low, middle and top fields. */
  lemma DecodeFields(buf: seq<Byte>)
    requires |buf| == 2 && BigEndian(buf) / 4096 <= 4
    ensures BufferToMove(buf) == Some(BitsToSquare(ToBits(BigEndian(buf), 6))
                                      + BitsToSquare(ToBits(BigEndian(buf) / 64, 6))
                                      + PromotionSuffix(PromotionName(BigEndian(buf) / 4096).value))
  {
    var v := BigEndian(buf);
    BufferFields(buf);
    var bits := BufferBits(buf);
    assert bits[0..6] == ToBits(v, 6);
    assert bits[6..12] == ToBits(v / 64, 6);
  }

  /**
    The packing law: every valid move text, with or without a promotion,
    survives `convertMoveToBuffer` followed by `convertBufferToMove`.
   */
  lemma MoveRoundTrip(m: string)
    requires ValidMoveText(m)
    ensures MoveToBuffer(m).Some?
    ensures BufferToMove(MoveToBuffer(m).value) == Some(m)
  {
    var from, to := m[..2], m[2..4];
    assert Slice(m, 0, 2) == from && Slice(m, 2, 4) == to;
    var f, t := SquareIndex(from).value, SquareIndex(to).value;
    var code := PromotionCode(PromotionText(m)).value;
    var buf := MoveToBuffer(m).value;
    var v := BigEndian(buf);
    assert v == PackedValue(f, t, code);
    UnpackPacked(f, t, code);
    DecodeFields(buf);
    ToBitsModulo(v, f);
    ToBitsModulo(v / 64, t);
    SquareRoundTrip(from);
    SquareRoundTrip(to);
    PromotionRoundTrip(m);
    MoveTextParts(m);
  }

  /** The promotion letter of a valid move text survives its code. */
  lemma PromotionRoundTrip(m: string)
    requires ValidMoveText(m)
    ensures PromotionCode(PromotionText(m)).Some?
    ensures PromotionSuffix(PromotionName(PromotionCode(PromotionText(m)).value).value) == (if |m| > 4 then [m[4]] else "")
  {
    if |m| > 4 {
      assert m[4] == 'n' || m[4] == 'b' || m[4] == 'r' || m[4] == 'q';
    }
  }

  /** A move text is its two squares followed by its promotion letter, if any. */
  lemma MoveTextParts(m: string)
    requires |m| == 4 || |m| == 5
    ensures m == m[..2] + m[2..4] + (if |m| > 4 then [m[4]] else "")
  {
  }

  /** Numbers with the same remainder modulo 64 have the same six low bits. */
  lemma ToBitsModulo(a: nat, b: nat)
    requires a % 64 == b % 64
    ensures ToBits(a, 6) == ToBits(b, 6)
  {
    Pow2Values();
    FromToBits(a, 6);
    BitsDetermined(ToBits(a, 6), b);
  }

  /** Top four bits 5..15 have no promotion name: decoding such a buffer throws. */
  lemma PromotionOutOfRange(buf: seq<Byte>)
    requires |buf| == 2 && buf[0] >= 0x50
    ensures BufferToMove(buf) == None
  {
    BigEndianTwo(buf);
    BufferFields(buf);
  }

  // ---------------------------------------------------------------------------
  // The load-time self check

  /** The square text `generatePositions` pushes for file `f` and rank `r`. */
  function SquareText(f: nat, r: nat): string
    requires f < 8
  {
    [FileLetter(f)] + IntToString(r)
  }

  /** The squares in the order `generatePositions` lists them: a1..a8, b1..b8, ..., h1..h8. */
  function AllSquares(): (squares: seq<string>)
    ensures |squares| == 64
  {
    seq(64, k requires 0 <= k < 64 => SquareText(k / 8, k % 8 + 1))
  }

  /** Every listed square is valid and has number `k + 1`, so the list has no repeats. */
  lemma AllSquaresNumbered(k: nat)
    requires k < 64
    ensures ValidSquare(AllSquares()[k])
    ensures SquareIndex(AllSquares()[k]) == Some(k + 1)
  {
    var sq := AllSquares()[k];
    assert sq == [FileLetter(k / 8), DigitChar(k % 8 + 1)];
  }

  /** The next square in the list after file `file`, rank `rank - 1` is the square at file `file`, rank `rank`. */
  lemma SquaresPrefixGrows(file: nat, rank: nat)
    requires file < 8 && 1 <= rank <= 8
    ensures AllSquares()[..8 * file + rank] == AllSquares()[..8 * file + rank - 1] + [SquareText(file, rank)]
  {
    var k := 8 * file + rank - 1;
    DivModUnique(k, 8, file, rank - 1);
    var squares := AllSquares();
    assert squares[k] == SquareText(file, rank);
    assert squares[..k + 1] == squares[..k] + [squares[k]];
  }

  /** `generatePositions`: two nested loops pushing `file + rank`. */
  method GeneratePositions() returns (positions: seq<string>)
    ensures positions == AllSquares()
  {
    positions := [];
    var file := 0;
    while file < 8
      invariant 0 <= file <= 8
      invariant positions == AllSquares()[..8 * file]
    {
      var rank := 1;
      while rank <= 8
        invariant 1 <= rank <= 9
        invariant positions == AllSquares()[..8 * file + rank - 1]
      {
        SquaresPrefixGrows(file, rank);
        positions := positions + [SquareText(file, rank)];
        rank := rank + 1;
      }
      file := file + 1;
    }
  }

  /**
    The module's sanity check: every one of the 64 x 64 origin/destination
    pairs converts to a buffer and back to the same text. The source throws on
    a mismatch; here the comparison is an assertion the verifier discharges, so
    the module always loads.
   */
  method CheckPositionEncoding() returns (total: nat)
    ensures total == 64 * 64
  {
    var positions := GeneratePositions();
    total := 0;
    var i := 0;
    while i < |positions|
      invariant 0 <= i <= 64
      invariant total == 64 * i
    {
      var j := 0;
      while j < |positions|
        invariant 0 <= j <= 64
        invariant total == 64 * i + j
      {
        total := total + 1;
        var text := positions[i] + positions[j];
        AllSquaresNumbered(i);
        AllSquaresNumbered(j);
        assert text[..2] == positions[i] && text[2..4] == positions[j];
        MoveRoundTrip(text);
        var converted := MoveToBuffer(text).value;
        var reverted := BufferToMove(converted);
        assert reverted == Some(text);
        j := j + 1;
      }
      i := i + 1;
    }
  }
}
