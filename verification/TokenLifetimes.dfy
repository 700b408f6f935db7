/** How the configured lifetime of an access token is read, and what it says. */
module TokenLifetimes {
  /** The white space `String.trim` strips. */
  predicate IsSpace(c: char) {
    c in {' ', '\t', '\n', '\r', '\U{000B}', '\U{000C}', '\U{00A0}', '\U{1680}', '\U{2028}', '\U{2029}',
          '\U{202F}', '\U{205F}', '\U{3000}', '\U{FEFF}'} || '\U{2000}' <= c <= '\U{200A}'
  }

  function Trim(s: string): string {
    if s != [] && IsSpace(s[0]) then Trim(s[1..])
    else if s != [] && IsSpace(s[|s| - 1]) then Trim(s[..|s| - 1])
    else s
  }

  predicate AllDigits(s: string) { forall i :: 0 <= i < |s| ==> '0' <= s[i] <= '9' }

  function DecimalValue(s: string): nat
    requires AllDigits(s)
  {
    if s == [] then 0 else 10 * DecimalValue(s[..|s| - 1]) + (s[|s| - 1] - '0') as nat
  }

  function UnitSeconds(unit: char): nat
    requires unit in "smhd"
  {
    if unit == 's' then 1 else if unit == 'm' then 60 else if unit == 'h' then 60 * 60 else 24 * 60 * 60
  }

  /** Digits followed by one of the units s, m, h, d. */
  predicate IsDuration(s: string) {
    |s| >= 2 && AllDigits(s[..|s| - 1]) && s[|s| - 1] in "smhd"
  }

  function DurationSeconds(s: string): nat
    requires IsDuration(s)
  {
    DecimalValue(s[..|s| - 1]) * UnitSeconds(s[|s| - 1])
  }

  /** `getAccessTokenTtlSeconds`. */
  function TtlSeconds(expiresIn: string): nat {
    var value := Trim(expiresIn);
    if IsDuration(value) then DurationSeconds(value) else 15 * 60
  }

  // ---------------------------------------------------------------- what a spelling says

  function Digit(d: nat): char
    requires d < 10
  {
    "0123456789"[d]
  }

  /** A number as it is written. */
  function Digits(n: nat): string {
    if n < 10 then [Digit(n)] else Digits(n / 10) + [Digit(n % 10)]
  }

  predicate Blank(s: string) { forall i :: 0 <= i < |s| ==> IsSpace(s[i]) }

  predicate Zeros(s: string) { forall i :: 0 <= i < |s| ==> s[i] == '0' }

  /** The number and its unit, with leading zeros and white space around them. */
  function Spelling(pre: string, zeros: string, n: nat, unit: char, post: string): string {
    pre + (zeros + Digits(n) + [unit]) + post
  }

  ghost predicate Spells(s: string, n: nat, unit: char) {
    exists pre, zeros, post :: Blank(pre) && Zeros(zeros) && Blank(post) && s == Spelling(pre, zeros, n, unit, post)
  }

  lemma {:induction false} DigitsAreRead(zeros: string, n: nat)
    requires Zeros(zeros)
    ensures AllDigits(zeros + Digits(n)) && |Digits(n)| > 0
    ensures DecimalValue(zeros + Digits(n)) == n
    decreases n, |zeros|
  {
    if n >= 10 {
      DigitsAreRead(zeros, n / 10);
      assert zeros + Digits(n) == (zeros + Digits(n / 10)) + [Digit(n % 10)];
      ReadLast(zeros + Digits(n / 10), n % 10);
    } else if zeros == [] {
      assert zeros + Digits(n) == [] + [Digit(n)];
      ReadLast([], n);
    } else {
      DigitsAreRead(zeros[..|zeros| - 1], 0);
      assert zeros == zeros[..|zeros| - 1] + Digits(0);
      assert zeros + Digits(n) == zeros + [Digit(n)];
      ReadLast(zeros, n);
    }
  }

  lemma ReadLast(s: string, d: nat)
    requires AllDigits(s) && d < 10
    ensures AllDigits(s + [Digit(d)]) && DecimalValue(s + [Digit(d)]) == 10 * DecimalValue(s) + d
  {
    assert (s + [Digit(d)])[..|s|] == s;
  }

  /** Any digits are the number they are read as, behind zeros. */
  lemma {:induction false} DigitsAreWritten(s: string) returns (zeros: string)
    requires AllDigits(s) && s != []
    ensures Zeros(zeros) && s == zeros + Digits(DecimalValue(s))
  {
    var init, d := s[..|s| - 1], (s[|s| - 1] - '0') as nat;
    assert s == init + [Digit(d)];
    if init == [] {
      zeros := [];
    } else {
      var before := DigitsAreWritten(init);
      if DecimalValue(init) == 0 {
        zeros := before + "0";
        assert init == zeros;
      } else {
        zeros := before;
        assert DecimalValue(s) / 10 == DecimalValue(init) && DecimalValue(s) % 10 == d;
      }
    }
  }

  lemma {:induction false} TrimStrips(pre: string, body: string, post: string)
    requires Blank(pre) && Blank(post)
    requires body != [] && !IsSpace(body[0]) && !IsSpace(body[|body| - 1])
    ensures Trim(pre + body + post) == body
    decreases |pre| + |post|
  {
    var s := pre + body + post;
    if pre != [] {
      assert s[1..] == pre[1..] + body + post;
      TrimStrips(pre[1..], body, post);
    } else if post != [] {
      assert s[0] == body[0];
      assert s[..|s| - 1] == pre + body + post[..|post| - 1];
      TrimStrips(pre, body, post[..|post| - 1]);
    } else {
      assert s == body;
    }
  }

  lemma {:induction false} TrimLeavesBlanks(s: string) returns (pre: string, post: string)
    ensures Blank(pre) && Blank(post) && s == pre + Trim(s) + post
    decreases |s|
  {
    if s != [] && IsSpace(s[0]) {
      pre, post := TrimLeavesBlanks(s[1..]);
      pre := [s[0]] + pre;
    } else if s != [] && IsSpace(s[|s| - 1]) {
      pre, post := TrimLeavesBlanks(s[..|s| - 1]);
      post := post + [s[|s| - 1]];
    } else {
      pre, post := [], [];
    }
  }

  lemma SpellingIsRead(pre: string, zeros: string, n: nat, unit: char, post: string)
    requires Blank(pre) && Zeros(zeros) && Blank(post) && unit in "smhd"
    ensures TtlSeconds(Spelling(pre, zeros, n, unit, post)) == n * UnitSeconds(unit)
  {
    DigitsAreRead(zeros, n);
    var number := zeros + Digits(n);
    var body := number + [unit];
    assert body[..|body| - 1] == number;
    assert body[0] == number[0];
    TrimStrips(pre, body, post);
  }

  lemma SpelledTtl(s: string, n: nat, unit: char)
    requires Spells(s, n, unit) && unit in "smhd"
    ensures TtlSeconds(s) == n * UnitSeconds(unit)
  {
    var pre, zeros, post :| Blank(pre) && Zeros(zeros) && Blank(post) && s == Spelling(pre, zeros, n, unit, post);
    SpellingIsRead(pre, zeros, n, unit, post);
  }

  /** A text that is read as a duration spells one. */
  lemma DurationIsSpelled(s: string) returns (n: nat, unit: char)
    requires IsDuration(Trim(s))
    ensures unit in "smhd" && Spells(s, n, unit)
  {
    var value := Trim(s);
    var number := value[..|value| - 1];
    n, unit := DecimalValue(number), value[|value| - 1];
    var pre, post := TrimLeavesBlanks(s);
    var zeros := DigitsAreWritten(number);
    assert value == zeros + Digits(n) + [unit];
    assert s == Spelling(pre, zeros, n, unit, post);
  }

  /**
   * What every configured text stands for: so many seconds, minutes, hours or days when it is a number and a
   * unit, with any leading zeros and surrounding white space, and fifteen minutes when it is anything else.
   */
  lemma TtlExactly(s: string)
    ensures forall n: nat :: Spells(s, n, 's') ==> TtlSeconds(s) == n
    ensures forall n: nat :: Spells(s, n, 'm') ==> TtlSeconds(s) == n * 60
    ensures forall n: nat :: Spells(s, n, 'h') ==> TtlSeconds(s) == n * 3600
    ensures forall n: nat :: Spells(s, n, 'd') ==> TtlSeconds(s) == n * 86400
    ensures (forall n: nat, unit :: unit in "smhd" ==> !Spells(s, n, unit)) ==> TtlSeconds(s) == 900
  {
    forall n: nat, unit | unit in "smhd" && Spells(s, n, unit) ensures TtlSeconds(s) == n * UnitSeconds(unit) {
      SpelledTtl(s, n, unit);
    }
    if IsDuration(Trim(s)) {
      var n, unit := DurationIsSpelled(s);
    }
  }

  /** In particular the plain spellings. */
  lemma PlainTtl(n: nat)
    ensures TtlSeconds(Digits(n) + "s") == n
    ensures TtlSeconds(Digits(n) + "m") == n * 60
    ensures TtlSeconds(Digits(n) + "h") == n * 3600
    ensures TtlSeconds(Digits(n) + "d") == n * 86400
  {
    PlainIsSpelled(n, 's');
    PlainIsSpelled(n, 'm');
    PlainIsSpelled(n, 'h');
    PlainIsSpelled(n, 'd');
    TtlExactly(Digits(n) + "s");
    TtlExactly(Digits(n) + "m");
    TtlExactly(Digits(n) + "h");
    TtlExactly(Digits(n) + "d");
  }

  lemma PlainIsSpelled(n: nat, unit: char)
    ensures Spells(Digits(n) + [unit], n, unit)
  {
    assert Digits(n) + [unit] == Spelling([], [], n, unit, []);
  }
}
