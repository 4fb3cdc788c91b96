/**
  The key-code encoder of the helpers: a string over the digits and the slash
  becomes the list of Android key codes that types it on the numeric keypad.
 */
module Helpers {
  import opened Wrappers

  /** The lookup table of the encoder: digit d is key code 7 + d, the slash is 76. */
  const NativeKeyCodes: map<char, int> := map[
    '0' := 7, '1' := 8, '2' := 9, '3' := 10, '4' := 11,
    '5' := 12, '6' := 13, '7' := 14, '8' := 15, '9' := 16,
    '/' := 76
  ]

  /** The ValueError raised for a string holding a character outside the table. */
  datatype KeyMapError = UnmappedCharacter(value: string, ch: char)
  {
    /**
      The text the error carries: the whole string after a fixed prefix, and
      at the end the unmapped character in parentheses.
     */
    function Message(): (m: string)
      ensures var prefix := "Failed to map string (";
        && |m| >= |prefix| + |value| + 4
        && m[..|prefix|] == prefix
        && m[|prefix|..|prefix| + |value|] == value
        && m[|m| - 4..] == ['(', ch, ')', '.']
    {
      "Failed to map string (" + value + ") to NativeKey, there may be invalid characters such as: (" + [ch] + ")."
    }
  }

  predicate Mappable(c: char) {
    c in NativeKeyCodes
  }

  predicate AllMappable(s: string) {
    forall i :: 0 <= i < |s| ==> Mappable(s[i])
  }

  /** `k` is the position of the first character of `s` outside the table. */
  predicate FirstUnmappable(s: string, k: int) {
    && 0 <= k < |s|
    && !Mappable(s[k])
    && forall j :: 0 <= j < k ==> Mappable(s[j])
  }

  /** A key code the encoder can produce: 7 to 16 for the digits, 76 for the slash. */
  predicate IsNativeKeyCode(code: int) {
    7 <= code <= 16 || code == 76
  }

  /**
    Reference definition of the encoding, character by character from the
    front, stopping at the first character outside the table.
   */
  function EncodeChars(s: string): (r: Result<seq<int>, char>)
    ensures r.Success? ==>
      && |r.value| == |s|
      && forall i :: 0 <= i < |s| ==> Mappable(s[i]) && r.value[i] == NativeKeyCodes[s[i]]
    ensures r.Failure? ==> exists k :: FirstUnmappable(s, k) && s[k] == r.error
  {
    if s == [] then Success([])
    else if s[0] !in NativeKeyCodes then
      assert FirstUnmappable(s, 0);
      Failure(s[0])
    else
      match EncodeChars(s[1..])
      case Success(rest) => Success([NativeKeyCodes[s[0]]] + rest)
      case Failure(c) =>
        var k :| FirstUnmappable(s[1..], k) && s[1..][k] == c;
        assert FirstUnmappable(s, k + 1);
        Failure(c)
  }

  /**
    What `convert_string_to_nativekey` returns for `value`: the codes of its
    characters in order, or the error naming the first character outside the
    table.
   */
  function Encode(value: string): (r: Result<seq<int>, KeyMapError>)
    ensures r.Success? <==> AllMappable(value)
    ensures r.Success? ==>
      && |r.value| == |value|
      && forall i :: 0 <= i < |value| ==> r.value[i] == NativeKeyCodes[value[i]]
    ensures r.Failure? ==>
      && r.error.value == value
      && exists k :: FirstUnmappable(value, k) && r.error.ch == value[k]
    ensures value == [] ==> r == Success([])
  {
    match EncodeChars(value)
    case Success(codes) => Success(codes)
    case Failure(c) => Failure(UnmappedCharacter(value, c))
  }

  /** The loop of `convert_string_to_nativekey`: one append per character, raising at the first unmapped one. */
  method ConvertStringToNativeKey(value: string) returns (r: Result<seq<int>, KeyMapError>)
    ensures r == Encode(value)
  {
    var codes: seq<int> := [];
    for i := 0 to |value|
      invariant |codes| == i
      invariant forall j :: 0 <= j < i ==> Mappable(value[j]) && codes[j] == NativeKeyCodes[value[j]]
    {
      var ch := value[i];
      if ch in NativeKeyCodes {
        codes := codes + [NativeKeyCodes[ch]];
      } else {
        assert FirstUnmappable(value, i);
        return Failure(UnmappedCharacter(value, ch));
      }
    }
    assert AllMappable(value);
    assert codes == Encode(value).value;
    return Success(codes);
  }

  /** Each digit character d encodes as key code 7 + d. */
  lemma DigitKeyCode(c: char)
    requires '0' <= c <= '9'
    ensures Encode([c]) == Success([7 + (c as int - '0' as int)])
  {
    assert NativeKeyCodes[c] == 7 + (c as int - '0' as int) by {
      assert c in {'0', '1', '2', '3', '4', '5', '6', '7', '8', '9'};
    }
    assert [c][1..] == [];
    assert EncodeChars([]) == Success([]);
    assert EncodeChars([c]) == Success([NativeKeyCodes[c]] + EncodeChars([]).value);
    assert [NativeKeyCodes[c]] + EncodeChars([]).value == [7 + (c as int - '0' as int)];
  }

  /** The slash encodes as key code 76. */
  lemma SlashKeyCode()
    ensures Encode("/") == Success([76])
  {
    assert "/"[1..] == [];
    assert EncodeChars([]) == Success([]);
    assert NativeKeyCodes['/'] == 76;
    assert EncodeChars("/") == Success([NativeKeyCodes['/']] + EncodeChars([]).value);
    assert [NativeKeyCodes['/']] + EncodeChars([]).value == [76];
  }

  /** Every code a successful encoding produces is a digit code or the slash code. */
  lemma EncodedCodesInRange(value: string)
    requires Encode(value).Success?
    ensures forall i :: 0 <= i < |Encode(value).value| ==> IsNativeKeyCode(Encode(value).value[i])
  {
    forall i | 0 <= i < |Encode(value).value|
      ensures IsNativeKeyCode(Encode(value).value[i])
    {
      assert value[i] in NativeKeyCodes.Keys;
    }
  }

  /** The characters the encoder accepts are exactly the ten digits and the slash. */
  lemma MappableCharacters(c: char)
    ensures Mappable(c) <==> ('0' <= c <= '9' || c == '/')
  {
  }

  /** The first failure of two encodings in sequence, else their codes one after the other. */
  function AndThen(first: Result<seq<int>, char>, second: Result<seq<int>, char>): Result<seq<int>, char> {
    if first.Failure? then first
    else if second.Failure? then second
    else Success(first.value + second.value)
  }

  /** Encoding a concatenation: the first error of `a`, else the first error of `b`, else the codes of `a` then those of `b`. */
  lemma {:induction false} EncodeCharsConcat(a: string, b: string)
    ensures EncodeChars(a + b) == AndThen(EncodeChars(a), EncodeChars(b))
  {
    if a == [] {
      assert a + b == b;
      assert EncodeChars(b).Success? ==> [] + EncodeChars(b).value == EncodeChars(b).value;
    } else {
      var ab := a + b;
      assert ab[0] == a[0];
      assert ab[1..] == a[1..] + b;
      if a[0] in NativeKeyCodes {
        EncodeCharsConcat(a[1..], b);
        var tail := EncodeChars(a[1..]);
        if tail.Success? && EncodeChars(b).Success? {
          var h, x, y := NativeKeyCodes[a[0]], tail.value, EncodeChars(b).value;
          assert [h] + (x + y) == ([h] + x) + y;
        }
      }
    }
  }

  /** On success, encoding a concatenation concatenates the encodings; it fails exactly when one part fails. */
  lemma EncodeConcat(a: string, b: string)
    ensures Encode(a + b).Success? <==> Encode(a).Success? && Encode(b).Success?
    ensures Encode(a + b).Success? ==> Encode(a + b).value == Encode(a).value + Encode(b).value
  {
    EncodeCharsConcat(a, b);
  }

  /** A sample date encodes digit by digit, the slashes as 76. */
  lemma EncodeOfDate()
    ensures Encode("06/01/2024") == Success([7, 13, 76, 7, 8, 76, 9, 7, 9, 11])
  {
    EncodeCharsOfDate();
  }

  /** The sample date as day and month, then slash and year: the encoding of a concatenation. */
  lemma EncodeCharsOfDate()
    ensures EncodeChars("06/01/2024") == Success([7, 13, 76, 7, 8, 76, 9, 7, 9, 11])
  {
    EncodeDayMonth();
    EncodeYear();
    assert "06/01" + "/2024" == "06/01/2024";
    EncodeCharsConcat("06/01", "/2024");
    assert [7, 13, 76, 7, 8] + [76, 9, 7, 9, 11] == [7, 13, 76, 7, 8, 76, 9, 7, 9, 11];
  }

  lemma EncodeDayMonth()
    ensures EncodeChars("06/01") == Success([7, 13, 76, 7, 8])
  {
    assert EncodeChars("") == Success([]);
    assert "1"[1..] == "";
    PrependMapped("1", []);
    assert [NativeKeyCodes['1']] + [] == [8];
    assert "01"[1..] == "1";
    PrependMapped("01", [8]);
    assert [NativeKeyCodes['0']] + [8] == [7, 8];
    assert "/01"[1..] == "01";
    PrependMapped("/01", [7, 8]);
    assert [NativeKeyCodes['/']] + [7, 8] == [76, 7, 8];
    assert "6/01"[1..] == "/01";
    PrependMapped("6/01", [76, 7, 8]);
    assert [NativeKeyCodes['6']] + [76, 7, 8] == [13, 76, 7, 8];
    assert "06/01"[1..] == "6/01";
    PrependMapped("06/01", [13, 76, 7, 8]);
    assert [NativeKeyCodes['0']] + [13, 76, 7, 8] == [7, 13, 76, 7, 8];
  }

  lemma EncodeYear()
    ensures EncodeChars("/2024") == Success([76, 9, 7, 9, 11])
  {
    assert EncodeChars("") == Success([]);
    assert "4"[1..] == "";
    PrependMapped("4", []);
    assert [NativeKeyCodes['4']] + [] == [11];
    assert "24"[1..] == "4";
    PrependMapped("24", [11]);
    assert [NativeKeyCodes['2']] + [11] == [9, 11];
    assert "024"[1..] == "24";
    PrependMapped("024", [9, 11]);
    assert [NativeKeyCodes['0']] + [9, 11] == [7, 9, 11];
    assert "2024"[1..] == "024";
    PrependMapped("2024", [7, 9, 11]);
    assert [NativeKeyCodes['2']] + [7, 9, 11] == [9, 7, 9, 11];
    assert "/2024"[1..] == "2024";
    PrependMapped("/2024", [9, 7, 9, 11]);
    assert [NativeKeyCodes['/']] + [9, 7, 9, 11] == [76, 9, 7, 9, 11];
  }

  /** One step of the encoding: a mapped first character puts its code in front of the rest's. */
  lemma PrependMapped(s: string, codes: seq<int>)
    requires |s| > 0 && s[0] in NativeKeyCodes && EncodeChars(s[1..]) == Success(codes)
    ensures EncodeChars(s) == Success([NativeKeyCodes[s[0]]] + codes)
  {
  }
}
