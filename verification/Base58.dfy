/** The Base58 and Base58Check codec of src/common/base58.rs, in place on fixed buffers. */
module Base58 {
  import opened Wrappers
  import opened Numerals
  import opened PowerBounds
  import opened Bits
  import opened Base58Spec

  /** The alphabet, in rows of 16. */
  const ALPHABET: seq<string> := [
    "123456789ABCDEFG",
    "HJKLMNPQRSTUVWXY",
    "Zabcdefghijkmnop",
    "qrstuvwxyz"
  ]

  /** The decoder's table of the 128 seven-bit characters, in rows of 16; -1
      marks a character outside the alphabet. */
  const B58_DIGITS_MAP: seq<seq<int>> := [
    [-1, -1, -1, -1, -1, -1, -1, -1, -1, -1, -1, -1, -1, -1, -1, -1],
    [-1, -1, -1, -1, -1, -1, -1, -1, -1, -1, -1, -1, -1, -1, -1, -1],
    [-1, -1, -1, -1, -1, -1, -1, -1, -1, -1, -1, -1, -1, -1, -1, -1],
    [-1, 0, 1, 2, 3, 4, 5, 6, 7, 8, -1, -1, -1, -1, -1, -1],
    [-1, 9, 10, 11, 12, 13, 14, 15, 16, -1, 17, 18, 19, 20, 21, -1],
    [22, 23, 24, 25, 26, 27, 28, 29, 30, 31, 32, -1, -1, -1, -1, -1],
    [-1, 33, 34, 35, 36, 37, 38, 39, 40, 41, 42, 43, -1, 44, 45, 46],
    [47, 48, 49, 50, 51, 52, 53, 54, 55, 56, 57, -1, -1, -1, -1, -1]
  ]

  /** A row of the table lists the digits of its characters. */
  lemma TableRowIs(r: nat, k: nat)
    requires r < 8 && 16 * r <= k < 16 * r + 16
    ensures B58_DIGITS_MAP[r][k - 16 * r] == Digit(k as char)
  {
    if r < 4 {
      LowRow(r, k);
    } else if r < 6 {
      MiddleRow(r, k);
    } else {
      HighRow(r, k);
    }
  }

  lemma LowRow(r: nat, k: nat)
    requires r < 4 && 16 * r <= k < 16 * r + 16
    ensures B58_DIGITS_MAP[r][k - 16 * r] == Digit(k as char)
  {
    if r == 0 { } else if r == 1 { } else if r == 2 { } else { }
  }

  lemma MiddleRow(r: nat, k: nat)
    requires 4 <= r < 6 && 16 * r <= k < 16 * r + 16
    ensures B58_DIGITS_MAP[r][k - 16 * r] == Digit(k as char)
  {
    if r == 4 { } else { }
  }

  lemma HighRow(r: nat, k: nat)
    requires 6 <= r < 8 && 16 * r <= k < 16 * r + 16
    ensures B58_DIGITS_MAP[r][k - 16 * r] == Digit(k as char)
  {
    if r == 6 { } else { }
  }

  lemma TableRow(k: nat)
    requires k < 128
    ensures B58_DIGITS_MAP[k / 16][k % 16] == Digit(k as char)
  {
    hide Digit;
    TableRowIs(k / 16, k);
  }

  lemma AlphabetRow(d: nat)
    requires d < 58
    ensures ALPHABET[d / 16][d % 16] == Letter(d)
  {
    hide Letter;
    if d < 32 {
      LowLetters(d / 16, d);
    } else {
      HighLetters(d / 16, d);
    }
  }

  lemma LowLetters(r: nat, d: nat)
    requires r < 2 && 16 * r <= d < 16 * r + 16
    ensures ALPHABET[r][d - 16 * r] == Letter(d)
  {
    if r == 0 { } else { }
  }

  lemma HighLetters(r: nat, d: nat)
    requires 2 <= r < 4 && 16 * r <= d < 16 * r + 16 && d < 58
    ensures ALPHABET[r][d - 16 * r] == Letter(d)
  {
    if r == 2 { } else { }
  }

  /** The encoder's table lookup. */
  method LookupLetter(d: nat) returns (c: char)
    requires d < 58
    ensures c == Letter(d)
  {
    AlphabetRow(d);
    c := ALPHABET[d / 16][d % 16];
  }

  /** The decoder's table lookup. A character above 127 is a byte with its high bit
      set; it is rejected before the table is read. */
  method LookupDigit(c: char) returns (d: int)
    ensures d == Digit(c)
  {
    if c as int >= 0x80 {
      return -1;
    }
    TableRow(c as int);
    d := B58_DIGITS_MAP[c as int / 16][c as int % 16];
  }

  // ----- encoder

  /** Multiplying `before` by `factor` and adding `x`, digit by digit from the
      right: the digits from `todo` on are done and `carry` is still to be added. */
  ghost predicate Multiplying(base: nat, factor: nat, before: seq<nat>, after: seq<nat>, todo: nat, carry: nat, x: nat) {
    && todo <= |before| == |after| && AllBelow(base, after) && after[..todo] == before[..todo]
    && Value(base, [carry] + after[todo..]) == factor * Value(base, before[todo..]) + x
  }

  lemma MultiplyingStarts(base: nat, factor: nat, before: seq<nat>, x: nat)
    requires AllBelow(base, before)
    ensures Multiplying(base, factor, before, before, |before|, x, x)
  {
    ValueOfOne(base, x);
    assert [x] + before[|before|..] == [x];
  }

  lemma MultiplyingStep(base: nat, factor: nat, before: seq<nat>, after: seq<nat>, todo: nat, carry: nat, x: nat, t: nat)
    requires base > 0 && 0 < todo <= |after| && t == factor * after[todo - 1] + carry
    requires Multiplying(base, factor, before, after, todo, carry, x)
    ensures Multiplying(base, factor, before, after[todo - 1 := t % base], todo - 1, t / base, x)
  {
    hide Value, Pow;
    var j := todo - 1;
    var next := after[j := t % base];
    assert after[j] == before[j] && next[..j] == before[..j] by {
      assert forall k :: 0 <= k < todo ==> after[k] == after[..todo][k] == before[..todo][k] == before[k];
    }
    MultiplyStep(base, factor, x, before[j], carry, before[todo..], after[todo..]);
    assert next[j..] == [t % base] + after[todo..];
    assert before[j..] == [before[j]] + before[todo..];
  }

  /** Once every digit is done nothing is carried out of a number that fits. */
  lemma NothingCarriedOut(base: nat, factor: nat, before: seq<nat>, after: seq<nat>, todo: nat, carry: nat, x: nat)
    requires Multiplying(base, factor, before, after, todo, carry, x)
    requires factor * Value(base, before) + x < Pow(base, |before|)
    ensures todo == 0 ==> carry == 0
  {
    if todo == 0 {
      assert before[0..] == before;
      LeadingDigitOfSmall(base, [carry] + after[0..]);
    }
  }

  /** Stopping early is safe when the digits not done are zero. */
  lemma MultiplyingDone(base: nat, factor: nat, before: seq<nat>, after: seq<nat>, todo: nat, x: nat)
    requires Multiplying(base, factor, before, after, todo, 0, x)
    requires forall k :: 0 <= k < todo ==> before[k] == 0
    ensures Value(base, after) == factor * Value(base, before) + x
    ensures forall k :: 0 <= k < todo ==> after[k] == 0
  {
    assert forall k :: 0 <= k < todo ==> after[k] == after[..todo][k] == before[..todo][k];
    ValueDropsLeadingZeros(base, before, todo);
    ValueDropsLeadingZeros(base, after, todo);
    ValuePrepend(base, 0, after[todo..]);
  }

  /** One turn of the encoder's inner loop. */
  method AbsorbDigit(buffer: array<u8>, j: nat, carry: u32, ghost before: seq<nat>, ghost x: nat) returns (carry': u32)
    requires j < buffer.Length && carry < 256
    requires Multiplying(58, 256, before, buffer[..], j + 1, carry, x)
    modifies buffer
    ensures carry' < 256
    ensures Multiplying(58, 256, before, buffer[..], j, carry', x)
  {
    ghost var after: seq<nat> := buffer[..];
    assert after[j] < 58;
    hide Multiplying;
    var t: u32 := carry + 256 * (buffer[j] as nat);
    MultiplyingStep(58, 256, before, after, j + 1, carry, x, t);
    buffer[j] := t % 58;
    assert buffer[..] == after[j := t % 58];
    carry' := t / 58;
  }

  /** The inner loop of the encoder: multiply the number in `buffer` by 256 and add
      `x`. Digits at or below `high` are still zero, so the loop may stop there as
      soon as nothing is carried; `j` is the next `high`. */
  method AbsorbByte(buffer: array<u8>, high: nat, x: u8) returns (j: nat)
    requires high < buffer.Length && AllBelow(58, buffer[..])
    requires forall k :: 0 <= k <= high ==> buffer[k] == 0
    requires 256 * Value(58, buffer[..]) + x < Pow(58, buffer.Length)
    modifies buffer
    ensures AllBelow(58, buffer[..])
    ensures Value(58, buffer[..]) == 256 * old(Value(58, buffer[..])) + x
    ensures j < buffer.Length && (j > 0 ==> forall k :: 0 <= k <= j ==> buffer[k] == 0)
  {
    ghost var before: seq<nat> := buffer[..];
    ghost var todo := buffer.Length;  // the digits from here on are done
    var carry: u32 := x;
    j := buffer.Length - 1;
    MultiplyingStarts(58, 256, before, x);
    while j > high || carry != 0
      invariant j == if todo == 0 then 0 else todo - 1
      invariant carry < 256
      invariant Multiplying(58, 256, before, buffer[..], todo, carry, x)
      decreases todo
    {
      NothingCarriedOut(58, 256, before, buffer[..], todo, carry, x);
      carry := AbsorbDigit(buffer, j, carry, before, x);
      todo := j;
      // guards the index against underflow
      if j > 0 {
        j := j - 1;
      }
    }
    MultiplyingDone(58, 256, before, buffer[..], todo, x);
  }

  lemma ValueOfNothing(base: nat)
    ensures Value(base, []) == 0
  {
  }

  /** The outer loop of the encoder. The buffer is guessed from the length; that it
      is long enough is what keeps the digits right. */
  method FillBuffer(b: seq<u8>, zcount: nat) returns (buffer: array<u8>)
    requires zcount <= |b|
    ensures fresh(buffer) && AllBelow(58, buffer[..])
    ensures Value(58, buffer[..]) == Value(256, b[zcount..])
  {
    hide Value, Pow;
    var size := BufferSize(|b| - zcount);
    buffer := new u8[size](_ => 0);
    var i := zcount;
    var high := size - 1;
    ValueOfZeros(58, buffer[..]);
    ValueOfNothing(256);
    assert b[zcount..][..0] == [];
    while i < |b|
      invariant zcount <= i <= |b| && high < size == buffer.Length && fresh(buffer)
      invariant AllBelow(58, buffer[..])
      invariant Value(58, buffer[..]) == Value(256, b[zcount..][..i - zcount])
      invariant i < |b| ==> forall k :: 0 <= k <= high ==> buffer[k] == 0
    {
      ghost var n := i - zcount;
      ghost var bytes: seq<u8> := b[zcount..];
      PrefixFits(bytes, n);
      high := AbsorbByte(buffer, high, b[i]);
      FirstDigitFree(bytes, n + 1, buffer[..]);
      i := i + 1;
    }
    assert b[zcount..][..i - zcount] == b[zcount..];
  }

  /** The text of the buffer's digits from `first` on, behind `zcount` ones. */
  method Render(buffer: array<u8>, zcount: nat, first: nat) returns (result: string)
    requires first <= buffer.Length && AllBelow(58, buffer[..])
    ensures result == Repeat('1', zcount) + Letters(buffer[first..])
  {
    result := "";
    for n := 0 to zcount
      invariant result == Repeat('1', n)
    {
      result := result + ['1'];
    }
    var j := first;
    while j < buffer.Length
      invariant first <= j <= buffer.Length
      invariant |result| == zcount + j - first && result[..zcount] == Repeat('1', zcount)
      invariant forall k :: first <= k < j ==> result[zcount + k - first] == Letter(buffer[k])
    {
      var c := LookupLetter(buffer[j]);
      result := result + [c];
      j := j + 1;
    }
    assert result[zcount..] == Letters(buffer[first..]);
  }

  method ToBase58(b: seq<u8>) returns (result: string)
    ensures result == Encoded(b)
  {
    var zcount := LeadingCount(b, 0);
    var buffer := FillBuffer(b, zcount);
    var j := LeadingCount(buffer[..], 0);
    ShortestDigits(buffer[..], j, Value(256, b[zcount..]));
    result := Render(buffer, zcount, j);
  }

  /** A prefix of the bytes is a number the buffer holds, also with one byte more. */
  lemma PrefixFits(b: seq<u8>, n: nat)
    requires n < |b|
    ensures Value(256, b[..n + 1]) == 256 * Value(256, b[..n]) + b[n] < Pow(58, BufferSize(|b|))
  {
    assert b[..n + 1] == b[..n] + [b[n]];
    ValueAppend(256, b[..n], b[n]);
    ValueBound(256, b[..n + 1]);
    BytesFit(n + 1);
    PowMonotone(58, BufferSize(n + 1), BufferSize(|b|));
  }

  /** Before the last byte the first digit of the buffer is still zero. */
  lemma FirstDigitFree(b: seq<u8>, n: nat, buffer: seq<nat>)
    requires n <= |b| && |buffer| == BufferSize(|b|)
    requires Value(58, buffer) == Value(256, b[..n])
    ensures n < |b| ==> buffer[0] == 0
  {
    if n < |b| {
      ValueBound(256, b[..n]);
      PowMonotone(256, n, |b| - 1);
      AllButLastLeaveRoom(|b|);
      LeadingDigitOfSmall(58, buffer);
    }
  }

  lemma ShortestDigits(buffer: seq<nat>, j: nat, v: nat)
    requires AllBelow(58, buffer) && Value(58, buffer) == v
    requires j == LeadingCount(buffer, 0)
    ensures buffer[j..] == Digits(58, v)
  {
    ValueDropsLeadingZeros(58, buffer, j);
    DigitsOfValue(58, buffer[j..]);
  }

  // ----- decoder

  const WORD: nat := 0x1_0000_0000

  /** The two masks of the inner loop. The high one keeps the whole carry of a
      word multiplied by 58, the low one the word: no bit is lost. */
  method SplitWord(t: u64) returns (carry: u64, word: u32)
    requires t < 0x40 * WORD
    ensures carry == t / WORD && word == t % WORD
  {
    hide BitAnd, ShiftRight, Power2;
    SmallPowers();
    MaskThenShift(t, 0x3f, 6, 32);
    BitAndLowMask(t, 32);
    carry := ShiftRight(BitAnd(t, 0x3f_0000_0000), 32);
    word := BitAnd(t, 0xffff_ffff);
  }

  /** One turn of the decoder's inner loop. */
  method MultiplyWord(out: array<u32>, j: nat, c: u64, ghost before: seq<nat>, ghost x: nat) returns (c': u64)
    requires j < out.Length && c < 58
    requires Multiplying(WORD, 58, before, out[..], j + 1, c, x)
    modifies out
    ensures c' < 58
    ensures Multiplying(WORD, 58, before, out[..], j, c', x)
  {
    hide Multiplying;
    ghost var after: seq<nat> := out[..];
    var t: u64 := (out[j] as nat) * 58 + c;
    MultiplyingStep(WORD, 58, before, after, j + 1, c, x, t);
    var word;
    c', word := SplitWord(t);
    out[j] := word;
    assert out[..] == after[j := word];
  }

  /** The inner loop of the decoder: multiply the words by 58 and add `digit`;
      `c` is carried out of the first word. */
  method MultiplyWords(out: array<u32>, digit: nat) returns (c: u64)
    requires digit < 58
    modifies out
    ensures Value(WORD, [c] + out[..]) == 58 * old(Value(WORD, out[..])) + digit
  {
    ghost var before: seq<nat> := out[..];
    c := digit;
    var j := out.Length;
    MultiplyingStarts(WORD, 58, before, digit);
    while j != 0
      invariant 0 <= j <= out.Length && c < 58
      invariant Multiplying(WORD, 58, before, out[..], j, c, digit)
    {
      j := j - 1;
      c := MultiplyWord(out, j, c, before, digit);
    }
    assert before[0..] == before && out[..][0..] == out[..];
  }

  /** The outer loop of the decoder: after each character the words hold the
      number read so far. */
  method Accumulate(s: string, zcount: nat, out: array<u32>) returns (r: Result<(), Error>)
    requires zcount <= |s| && forall k :: 0 <= k < out.Length ==> out[k] == 0
    modifies out
    ensures Scan(s, zcount, 0, Pow(WORD, out.Length)) ==
      match r case Ok(_) => Ok(Value(WORD, out[..])) case Err(e) => Err(e)
  {
    ghost var limit := Pow(WORD, out.Length);
    var i := zcount;
    ValueOfZeros(WORD, out[..]);
    while i < |s|
      invariant zcount <= i <= |s|
      invariant Scan(s, zcount, 0, limit) == Scan(s, i, Value(WORD, out[..]), limit)
    {
      var d := LookupDigit(s[i]);
      if d == -1 {
        return Err(InvalidBase58Character(i));
      }
      var c := MultiplyWords(out, d);
      CarryMeansTooBig(out[..], c);
      if c != 0 {
        return Err(InvalidBase58Length);
      }
      i := i + 1;
    }
    return Ok(());
  }

  lemma CarryMeansTooBig(words: seq<u32>, c: nat)
    ensures c != 0 <==> Value(WORD, [c] + words) >= Pow(WORD, |words|)
    ensures c == 0 ==> Value(WORD, [c] + words) == Value(WORD, words)
  {
    ValuePrepend(WORD, c, words);
    ValueBound(WORD, words);
    MulAtLeast(c, Pow(WORD, |words|));
  }

  /** The four shifts and masks of the unpacking loop. */
  method WordBytes(w: u32) returns (b0: u8, b1: u8, b2: u8, b3: u8)
    ensures ((b0 as nat * 256 + b1) * 256 + b2) * 256 + b3 == w
  {
    hide BitAnd, ShiftRight, Power2;
    SmallPowers();
    ShiftThenMask(w, 8, 24);
    ShiftThenMask(w, 8, 16);
    ShiftThenMask(w, 8, 8);
    ShiftThenMask(w, 8, 0);
    b0 := BitAnd(ShiftRight(w, 24), 0xff);
    b1 := BitAnd(ShiftRight(w, 16), 0xff);
    b2 := BitAnd(ShiftRight(w, 8), 0xff);
    b3 := BitAnd(ShiftRight(w, 0), 0xff);
    BytesOfWord(w);
  }

  lemma BytesOfWord(w: u32)
    ensures ((w / 0x100_0000 % 0x100 * 256 + w / 0x1_0000 % 0x100) * 256 + w / 0x100 % 0x100) * 256 + w % 0x100 == w
  {
    var high := w / 0x1_0000;
    assert high == high / 0x100 * 0x100 + high % 0x100;
    assert high / 0x100 == w / 0x100_0000 < 0x100;
    assert w == w / 0x100 * 0x100 + w % 0x100;
    assert w / 0x100 / 0x100 == high;
    assert w / 0x100 == high * 0x100 + w / 0x100 % 0x100;
  }

  /** One word as four bytes. */
  method PutWord(bin: array<u8>, i: nat, w: u32)
    requires i + 4 <= bin.Length
    modifies bin
    ensures bin[..i] == old(bin[..i])
    ensures Value(256, bin[..i + 4]) == Value(256, old(bin[..i])) * WORD + w
  {
    hide Value;
    ghost var done: seq<nat> := bin[..i];
    var b0, b1, b2, b3 := WordBytes(w);
    FourBytes(done, b0, b1, b2, b3);
    bin[i], bin[i + 1], bin[i + 2], bin[i + 3] := b0, b1, b2, b3;
    assert bin[..i + 4] == done + [b0, b1, b2, b3];
  }

  lemma AnotherWord(bytes: seq<nat>, words: seq<nat>, j: nat)
    requires j < |words| && Value(256, bytes) == Value(WORD, words[..j]) * WORD + words[j]
    ensures Value(256, bytes) == Value(WORD, words[..j + 1])
  {
    hide Value;
    assert words[..j + 1] == words[..j] + [words[j]];
    ValueAppend(WORD, words[..j], words[j]);
  }

  /** The words as bytes, four each. */
  method Unpack(out: array<u32>) returns (bin: array<u8>)
    ensures fresh(bin) && bin.Length == 4 * out.Length
    ensures Value(256, bin[..]) == Value(WORD, out[..])
  {
    bin := new u8[4 * out.Length](_ => 0);
    assert Value(256, bin[..0]) == Value(WORD, out[..0]);
    hide Value;
    var i, j := 0, 0;
    while j < out.Length
      invariant j <= out.Length && i == 4 * j
      invariant fresh(bin) && bin.Length == 4 * out.Length
      invariant Value(256, bin[..i]) == Value(WORD, out[..j])
    {
      PutWord(bin, i, out[j]);
      AnotherWord(bin[..i + 4], out[..], j);
      assert out[..][..j] == out[..j] && out[..][..j + 1] == out[..j + 1];
      i := i + 4;
      j := j + 1;
    }
    assert bin[..i] == bin[..] && out[..j] == out[..];
  }

  lemma FourBytes(bytes: seq<nat>, b0: nat, b1: nat, b2: nat, b3: nat)
    ensures Value(256, bytes + [b0, b1, b2, b3]) == Value(256, bytes) * WORD + ((b0 * 256 + b1) * 256 + b2) * 256 + b3
  {
    assert bytes + [b0, b1, b2, b3] == (((bytes + [b0]) + [b1]) + [b2]) + [b3];
    ValueAppend(256, bytes, b0);
    ValueAppend(256, bytes + [b0], b1);
    ValueAppend(256, (bytes + [b0]) + [b1], b2);
    ValueAppend(256, ((bytes + [b0]) + [b1]) + [b2], b3);
  }

  lemma WordsAndBytes(n: nat)
    ensures Pow(WORD, n) == Pow(256, 4 * n)
  {
    Powers256();
    PowOfPow(256, 4, n);
  }

  /** The decoder. Its buffer is a whole number of words, so the tests on a partly
      used first word never fire and are not repeated here. */
  method FromBase58(s: string) returns (r: Outcome<seq<u8>, Error>)
    ensures r == Decoded(s)
  {
    r := FromBase58Into(s, (CAPACITY + 3) / 4);
  }

  method FromBase58Into(s: string, words: nat) returns (r: Outcome<seq<u8>, Error>)
    ensures r == DecodedInto(s, 4 * words)
  {
    hide Value, Pow, Scan, Digits, LeadingCount;
    var out := new u32[words](_ => 0);
    var zcount := LeadingCount(s, '1');
    WordsAndBytes(words);
    var read := Accumulate(s, zcount, out);
    if read.Err? {
      return Fails(read.error);
    }
    var bin := Unpack(out);
    var leadingZeros := LeadingCount(bin[..], 0);
    SignificantBytes(bin[..], leadingZeros);
    if leadingZeros < zcount {
      return Panics;
    }
    assert bin[leadingZeros - zcount..] == Repeat(0, zcount) + bin[leadingZeros..];
    return Returns(bin[leadingZeros - zcount..]);
  }

  lemma SignificantBytes(bin: seq<u8>, zeros: nat)
    requires zeros == LeadingCount(bin, 0)
    ensures bin[zeros..] == Bytes(Digits(256, Value(256, bin)))
  {
    ValueDropsLeadingZeros(256, bin, zeros);
    DigitsOfValue(256, bin[zeros..]);
  }
}
