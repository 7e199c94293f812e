/** The JavaScript string built-ins the client relies on, over strings of
    code points: `trim`, `replace` with a string pattern (first match only),
    `indexOf`, the ASCII part of `toUpperCase`, and `replace(/[^\d]/g, '')`. */
module JsString {

  /** The WhiteSpace and LineTerminator code points of ECMAScript, which
      `String.prototype.trim` strips from both ends. */
  predicate IsWhiteSpace(c: char) {
    || c == '\t' || c == '\n' || c == '\U{000B}' || c == '\U{000C}' || c == '\r' || c == ' '
    || c == '\U{00A0}' || c == '\U{1680}' || ('\U{2000}' <= c <= '\U{200A}')
    || c == '\U{2028}' || c == '\U{2029}' || c == '\U{202F}' || c == '\U{205F}'
    || c == '\U{3000}' || c == '\U{FEFF}'
  }

  predicate AllWhiteSpace(s: string) {
    forall k :: 0 <= k < |s| ==> IsWhiteSpace(s[k])
  }

  lemma WhiteSpaceCons(c: char, w: string)
    requires IsWhiteSpace(c) && AllWhiteSpace(w)
    ensures AllWhiteSpace([c] + w)
  {
    assert forall k :: 0 < k <= |w| ==> ([c] + w)[k] == w[k - 1];
  }

  lemma WhiteSpaceSnoc(w: string, c: char)
    requires AllWhiteSpace(w) && IsWhiteSpace(c)
    ensures AllWhiteSpace(w + [c])
  {
    assert forall k :: 0 <= k < |w| ==> (w + [c])[k] == w[k];
  }

  /** Neither end of s is white space. */
  predicate Tight(s: string) {
    s == [] || (!IsWhiteSpace(s[0]) && !IsWhiteSpace(s[|s| - 1]))
  }

  /** s without its leading white space. */
  function TrimStart(s: string): (r: string)
    ensures |r| <= |s| && r == s[|s| - |r|..]
    ensures AllWhiteSpace(s[..|s| - |r|])
    ensures r != [] ==> !IsWhiteSpace(r[0])
  {
    if s != [] && IsWhiteSpace(s[0]) then
      var r := TrimStart(s[1..]);
      var k := |s| - |r|;
      assert s[..k] == [s[0]] + s[1..][..k - 1];
      WhiteSpaceCons(s[0], s[1..][..k - 1]);
      r
    else s
  }

  /** s without its trailing white space. */
  function TrimEnd(s: string): (r: string)
    ensures |r| <= |s| && r == s[..|r|]
    ensures AllWhiteSpace(s[|r|..])
    ensures r != [] ==> !IsWhiteSpace(r[|r| - 1])
  {
    if s != [] && IsWhiteSpace(s[|s| - 1]) then
      var p := s[..|s| - 1];
      var r := TrimEnd(p);
      assert p[..|r|] == s[..|r|];
      assert s[|r|..] == p[|r|..] + [s[|s| - 1]];
      WhiteSpaceSnoc(p[|r|..], s[|s| - 1]);
      r
    else s
  }

  /** `s.trim()`: s without the white space at either end. */
  function Trim(s: string): (r: string)
    ensures Tight(r)
    ensures |r| <= |s|
  {
    var t := TrimStart(s);
    var r := TrimEnd(t);
    assert r != [] ==> s[|s| - |t|] == r[0] && !IsWhiteSpace(r[0]);
    r
  }

  /** The trim is empty exactly when s is all white space. */
  lemma TrimEmpty(s: string)
    ensures Trim(s) == [] <==> AllWhiteSpace(s)
  {
    var t := TrimStart(s);
    if Trim(s) == [] {
      assert t == [];
      assert s == s[..|s| - |t|];
    } else {
      assert s[|s| - |t|] == Trim(s)[0];
    }
  }

  lemma {:induction false} TrimStartPadded(w: string, core: string)
    requires AllWhiteSpace(w)
    requires core == [] || !IsWhiteSpace(core[0])
    ensures TrimStart(w + core) == core
  {
    if w != [] {
      assert (w + core)[1..] == w[1..] + core;
      TrimStartPadded(w[1..], core);
    }
  }

  lemma {:induction false} TrimEndPadded(core: string, w: string)
    requires AllWhiteSpace(w)
    requires core == [] || !IsWhiteSpace(core[|core| - 1])
    ensures TrimEnd(core + w) == core
  {
    if w != [] {
      assert (core + w)[..|core + w| - 1] == core + w[..|w| - 1];
      TrimEndPadded(core, w[..|w| - 1]);
    }
  }

  /** `trim` is characterised by its result: padding a tight string with
      white space on either side and trimming gives the string back. */
  lemma TrimOfPadded(lead: string, core: string, trail: string)
    requires AllWhiteSpace(lead) && AllWhiteSpace(trail) && Tight(core)
    ensures Trim(lead + core + trail) == core
  {
    if core == [] {
      assert lead + core + trail == lead + trail;
      assert AllWhiteSpace(lead + trail);
    } else {
      assert lead + core + trail == lead + (core + trail);
      TrimStartPadded(lead, core + trail);
      TrimEndPadded(core, trail);
    }
  }

  /** A string with no white space at either end is its own trim. */
  lemma TrimOfTight(s: string)
    requires Tight(s)
    ensures Trim(s) == s
  {
    TrimOfPadded([], s, []);
    assert [] + s + [] == s;
  }

  /** Trimming twice is trimming once. */
  lemma TrimIdempotent(s: string)
    ensures Trim(Trim(s)) == Trim(s)
  {
    TrimOfTight(Trim(s));
  }

  /** `s.indexOf(c)`, with |s| standing for -1. */
  function IndexOf(s: string, c: char): (i: nat)
    ensures i <= |s|
    ensures i < |s| ==> s[i] == c
    ensures forall k :: 0 <= k < i ==> s[k] != c
    ensures i == |s| <==> c !in s
  {
    if s == [] then 0
    else if s[0] == c then 0
    else 1 + IndexOf(s[1..], c)
  }

  /** `s.replace(from, to)` with a one-character string pattern: only the
      first occurrence is replaced. */
  function ReplaceFirst(s: string, from: char, to: char): (r: string)
    ensures |r| == |s|
    ensures forall k :: 0 <= k < |s| ==> r[k] == if k == IndexOf(s, from) then to else s[k]
  {
    if s == [] then []
    else if s[0] == from then [to] + s[1..]
    else [s[0]] + ReplaceFirst(s[1..], from, to)
  }

  /** Replacing the first occurrence removes exactly one occurrence, when
      there is one. */
  lemma {:induction false} ReplaceFirstCount(s: string, from: char, to: char)
    requires from != to
    ensures multiset(ReplaceFirst(s, from, to))[from] == multiset(s)[from] - (if from in s then 1 else 0)
  {
    if s != [] {
      assert s == [s[0]] + s[1..];
      if s[0] != from {
        ReplaceFirstCount(s[1..], from, to);
        assert ReplaceFirst(s, from, to) == [s[0]] + ReplaceFirst(s[1..], from, to);
      }
    }
  }

  /** The ASCII case mapping of `toUpperCase`. */
  function UpperAscii(c: char): (u: char)
    ensures 'a' <= c <= 'z' ==> 'A' <= u <= 'Z'
    ensures !('a' <= c <= 'z') ==> u == c
  {
    if 'a' <= c <= 'z' then (c as int - 'a' as int + 'A' as int) as char else c
  }

  /** `\d` of a regular expression without the `u` flag. */
  predicate IsDigit(c: char) {
    '0' <= c <= '9'
  }

  /** `s.replace(/[^\d]/g, '')`: the digits of s, in order. */
  function DigitsOnly(s: string): (r: string)
    ensures forall k :: 0 <= k < |r| ==> IsDigit(r[k])
  {
    if s == [] then []
    else if IsDigit(s[0]) then [s[0]] + DigitsOnly(s[1..]) else DigitsOnly(s[1..])
  }

  /** Every digit of s is kept, as often as it occurs, and nothing else. */
  lemma {:induction false} DigitsOnlyKeepsDigits(s: string)
    ensures forall c :: multiset(DigitsOnly(s))[c] == if IsDigit(c) then multiset(s)[c] else 0
  {
    if s != [] {
      assert s == [s[0]] + s[1..];
      DigitsOnlyKeepsDigits(s[1..]);
    }
  }

  /** Keeping the digits distributes over concatenation. */
  lemma {:induction false} DigitsOnlyAppend(a: string, b: string)
    ensures DigitsOnly(a + b) == DigitsOnly(a) + DigitsOnly(b)
  {
    if a == [] {
      assert a + b == b;
    } else {
      assert (a + b)[0] == a[0] && (a + b)[1..] == a[1..] + b;
      DigitsOnlyAppend(a[1..], b);
    }
  }

  /** A string of digits is left as it is; in particular the filter is idempotent. */
  lemma {:induction false} DigitsOnlyOfDigits(s: string)
    requires forall k :: 0 <= k < |s| ==> IsDigit(s[k])
    ensures DigitsOnly(s) == s
  {
    if s != [] {
      DigitsOnlyOfDigits(s[1..]);
    }
  }

  /** A string without digits has none to keep. */
  lemma {:induction false} DigitsOnlyOfNonDigits(s: string)
    requires forall k :: 0 <= k < |s| ==> !IsDigit(s[k])
    ensures DigitsOnly(s) == []
  {
    if s != [] {
      DigitsOnlyOfNonDigits(s[1..]);
    }
  }

  /** DigitsOnlyAppend with the two parts' digits named. */
  lemma DigitsOnlyJoin(x: string, y: string, dx: string, dy: string)
    requires DigitsOnly(x) == dx && DigitsOnly(y) == dy
    ensures DigitsOnly(x + y) == dx + dy
  {
    DigitsOnlyAppend(x, y);
  }

  /** The digits of "1-aaa-bbb-cccc". */
  lemma TollFreeDigits(a: string, b: string, c: string)
    requires DigitsOnly(a) == a && DigitsOnly(b) == b && DigitsOnly(c) == c
    ensures DigitsOnly("1-" + a + "-" + b + "-" + c) == "1" + a + b + c
  {
    var one, dash := "1-", "-";
    assert DigitsOnly(one) == "1";
    assert DigitsOnly(dash) == [];
    DigitsOnlyJoin(one, a, "1", a);
    DigitsOnlyJoin(one + a, dash, "1" + a, []);
    assert "1" + a + [] == "1" + a;
    DigitsOnlyJoin(one + a + dash, b, "1" + a, b);
    DigitsOnlyJoin(one + a + dash + b, dash, "1" + a + b, []);
    assert "1" + a + b + [] == "1" + a + b;
    DigitsOnlyJoin(one + a + dash + b + dash, c, "1" + a + b, c);
  }
}
