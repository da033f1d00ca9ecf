/** Slash-separated keys and decimal numbers, as strings.Split, strings.Trim, strings.Join, strconv.Itoa
    and the strconv parsers treat them. */
module Text {
  import opened Finite

  ghost predicate Free(s: string, c: char) { forall i :: 0 <= i < |s| ==> s[i] != c }

  ghost predicate AllFree(parts: seq<string>, c: char) { forall i :: 0 <= i < |parts| ==> Free(parts[i], c) }

  // ----- split and join -----

  function Split(s: string, c: char): (parts: seq<string>)
    ensures parts != []
  {
    if s == "" then [""]
    else var rest := Split(s[1..], c);
         if s[0] == c then [""] + rest else [[s[0]] + rest[0]] + rest[1..]
  }

  function Join(parts: seq<string>, c: char): string {
    if parts == [] then "" else if |parts| == 1 then parts[0] else parts[0] + [c] + Join(parts[1..], c)
  }

  lemma {:induction false} SplitFree(s: string, c: char)
    requires Free(s, c)
    ensures Split(s, c) == [s]
  {
    if s != "" {
      SplitFree(s[1..], c);
      assert [s[0]] + s[1..] == s;
    }
  }

  lemma {:induction false} SplitAtSeparator(a: string, b: string, c: char)
    requires Free(a, c)
    ensures Split(a + [c] + b, c) == [a] + Split(b, c)
  {
    var s := a + [c] + b;
    if a == "" {
      assert s[1..] == b;
    } else {
      assert s[1..] == a[1..] + [c] + b;
      SplitAtSeparator(a[1..], b, c);
      assert [a[0]] + a[1..] == a;
      assert Split(s, c) == [a] + Split(b, c);
    }
  }

  /** Splitting undoes joining when no part holds the separator. */
  lemma {:induction false} SplitJoin(parts: seq<string>, c: char)
    requires parts != [] && AllFree(parts, c)
    ensures Split(Join(parts, c), c) == parts
  {
    if |parts| == 1 {
      SplitFree(parts[0], c);
    } else {
      SplitJoin(parts[1..], c);
      SplitAtSeparator(parts[0], Join(parts[1..], c), c);
      assert [parts[0]] + parts[1..] == parts;
    }
  }

  /** Joining undoes splitting, so different strings split differently. */
  lemma {:induction false} JoinSplit(s: string, c: char)
    ensures Join(Split(s, c), c) == s
  {
    if s != "" {
      JoinSplit(s[1..], c);
      var rest := Split(s[1..], c);
      assert s == [s[0]] + s[1..];
      if s[0] == c {
        assert ([""] + rest)[1..] == rest;
      } else {
        var parts := [[s[0]] + rest[0]] + rest[1..];
        assert |rest| > 1 ==> parts[1..] == rest[1..];
      }
    }
  }

  /** Trimming removes separators at both ends. */
  function TrimLeft(s: string, c: char): string {
    if s != "" && s[0] == c then TrimLeft(s[1..], c) else s
  }

  function TrimRight(s: string, c: char): string {
    if s != "" && s[|s|-1] == c then TrimRight(s[..|s|-1], c) else s
  }

  function Trim(s: string, c: char): string { TrimRight(TrimLeft(s, c), c) }

  /** The parts of a stored key. */
  function Parts(k: string): (parts: seq<string>)
    ensures parts != []
  {
    Split(Trim(k, '/'), '/')
  }

  ghost predicate KeyParts(parts: seq<string>) {
    parts != [] && AllFree(parts, '/') && parts[0] != "" && parts[|parts|-1] != ""
  }

  function KeyOf(parts: seq<string>): string { Join(parts, '/') }

  lemma {:induction false} JoinEnds(parts: seq<string>, c: char)
    requires parts != [] && AllFree(parts, c) && parts[|parts|-1] != ""
    ensures Join(parts, c) != "" && Join(parts, c)[|Join(parts, c)|-1] != c
    ensures parts[0] != "" ==> Join(parts, c)[0] != c
  {
    if |parts| > 1 {
      JoinEnds(parts[1..], c);
      var s, r := Join(parts, c), Join(parts[1..], c);
      assert s[|s|-1] == r[|r|-1];
    }
  }

  ghost predicate PlainId(id: string) { id != "" && Free(id, '/') }

  /** A key made of slash-free parts is read back as these parts. */
  lemma PartsOfKey(parts: seq<string>)
    requires KeyParts(parts)
    ensures Parts(KeyOf(parts)) == parts
  {
    JoinEnds(parts, '/');
    SplitJoin(parts, '/');
  }

  /** Slashes at the ends of a key do not matter. */
  lemma EndSlashesIgnored(k: string)
    ensures Parts("/" + k) == Parts(k) && Parts(k + "/") == Parts(k)
  {
    assert ("/" + k)[1..] == k;
    TrimAtEnd(k, '/');
  }

  lemma {:induction false} TrimAtEnd(s: string, c: char)
    ensures Trim(s + [c], c) == Trim(s, c)
  {
    var t := s + [c];
    if s == "" {
      assert t[1..] == "";
    } else if s[0] == c {
      TrimAtEnd(s[1..], c);
      assert t[1..] == s[1..] + [c];
    } else {
      assert t[..|t|-1] == s;
    }
  }

  // ----- decimal numbers -----

  function Digit(d: nat): char
    requires d < 10
  {
    "0123456789"[d]
  }

  function Itoa(n: nat): (s: string)
    ensures s != "" && forall i :: 0 <= i < |s| ==> '0' <= s[i] <= '9'
  {
    if n < 10 then [Digit(n)] else Itoa(n / 10) + [Digit(n % 10)]
  }

  function FormatInt(n: int): string { if n < 0 then "-" + Itoa(-n) else Itoa(n) }

  function Decimal(s: string): Option<nat> {
    if s == "" then None
    else
      var c := s[|s|-1];
      if !('0' <= c <= '9') then None
      else
        var d := (c - '0') as int;
        if |s| == 1 then Some(d)
        else match Decimal(s[..|s|-1])
             case None => None
             case Some(q) => Some(10 * q + d)
  }

  const UINT8: int := 0x100
  const UINT16: int := 0x1_0000
  const UINT32: int := 0x1_0000_0000
  const UINT64: int := 0x1_0000_0000_0000_0000
  const INT63: int := 0x8000_0000_0000_0000

  ghost predicate Int64(n: int) { -INT63 <= n < INT63 }

  /** ParseUint for numbers below limit: None stands for the error return. */
  function ParseUint(s: string, limit: int): (r: Option<nat>)
    ensures r.Some? ==> r.value < limit
  {
    match Decimal(s)
    case None => None
    case Some(n) => if n < limit then Some(n) else None
  }

  /** ParseInt and Atoi: an optional sign, then digits, with a value of at most 64 bits. */
  function ParseInt(s: string): (r: Option<int>)
    ensures r.Some? ==> -INT63 <= r.value < INT63
  {
    var neg := s != "" && s[0] == '-';
    match Decimal(if s != "" && (s[0] == '-' || s[0] == '+') then s[1..] else s)
    case None => None
    case Some(n) => if neg then if n <= INT63 then Some(0 - n) else None
                    else if n < INT63 then Some(n) else None
  }

  lemma DigitValue(d: nat)
    requires d < 10
    ensures '0' <= Digit(d) <= '9' && (Digit(d) - '0') as int == d
  {
  }

  lemma {:induction false} DecimalItoa(n: nat)
    ensures Decimal(Itoa(n)) == Some(n)
  {
    hide Digit;
    DigitValue(n % 10);
    if n >= 10 {
      DecimalItoa(n / 10);
      var s := Itoa(n);
      assert s[..|s|-1] == Itoa(n / 10) && s[|s|-1] == Digit(n % 10);
    }
  }

  lemma {:induction false} ParseUintItoa(n: nat, limit: int)
    requires n < limit
    ensures ParseUint(Itoa(n), limit) == Some(n)
  {
    DecimalItoa(n);
  }

  lemma ParseFormatInt(n: int)
    requires -INT63 <= n < INT63
    ensures ParseInt(FormatInt(n)) == Some(n)
  {
    hide Decimal, Itoa;
    if n < 0 {
      DecimalItoa(-n);
      assert FormatInt(n)[0] == '-' && FormatInt(n)[1..] == Itoa(-n);
    } else {
      DecimalItoa(n);
      assert '0' <= Itoa(n)[0] <= '9';
    }
  }

  /** A number may carry a sign. */
  lemma {:induction false} ParseSigned(n: nat)
    requires n < INT63
    ensures ParseInt("+" + Itoa(n)) == Some(n as int) == ParseInt(Itoa(n))
  {
    hide Itoa, Decimal, Digit;
    DecimalItoa(n);
    assert ("+" + Itoa(n))[1..] == Itoa(n);
  }

  lemma {:induction false} ItoaFree(n: nat, c: char)
    requires !('0' <= c <= '9')
    ensures Free(Itoa(n), c)
  {
  }

  lemma {:induction false} ItoaInjective(a: nat, b: nat)
    requires Itoa(a) == Itoa(b)
    ensures a == b
  {
    DecimalItoa(a);
    DecimalItoa(b);
  }

  lemma FormatSign(a: int)
    ensures FormatInt(a)[0] == '-' <==> a < 0
  {
    if a >= 0 { assert '0' <= Itoa(a)[0] <= '9'; }
  }

  lemma FormatIntInjective(a: int, b: int)
    requires FormatInt(a) == FormatInt(b)
    ensures a == b
  {
    hide Decimal, Itoa;
    FormatSign(a);
    FormatSign(b);
    if a < 0 {
      assert FormatInt(a)[1..] == Itoa(-a) && FormatInt(b)[1..] == Itoa(-b);
      ItoaInjective(-a, -b);
    } else {
      ItoaInjective(a, b);
    }
  }
}
