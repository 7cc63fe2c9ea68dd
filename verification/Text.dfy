/** The text checks shared by manifests, tokens and discovery, and decimal
    numerals (src/service.rs, src/gateway.rs, src/bin/dispatcher.rs, src/bin/load/retry.rs). */
module Text {
  predicate IsAlphanumeric(c: char) {
    'a' <= c <= 'z' || 'A' <= c <= 'Z' || '0' <= c <= '9'
  }

  predicate InName(c: char) {
    IsAlphanumeric(c) || c in "_-"
  }

  predicate Identifier(s: string) {
    s != "" && forall i | 0 <= i < |s| :: InName(s[i])
  }

  /** The pieces between slashes. */
  function Split(s: string): (parts: seq<string>)
    ensures |parts| >= 1
  {
    if s == "" then [""]
    else
      var rest := Split(s[1..]);
      if s[0] == '/' then [""] + rest else [[s[0]] + rest[0]] + rest[1..]
  }

  predicate AllIdentifiers(parts: seq<string>) {
    forall i | 0 <= i < |parts| :: Identifier(parts[i])
  }

  predicate Route(s: string) {
    s != "" && s[0] == '/' && AllIdentifiers(Split(s[1..]))
  }

  function TrimSlashes(s: string): string {
    if s != "" && s[0] == '/' then TrimSlashes(s[1..]) else s
  }

  /** What a route looks like character by character: names separated by single slashes, none at the end. */
  predicate SingleSlashes(s: string) {
    && (forall i | 0 <= i < |s| :: InName(s[i]) || s[i] == '/')
    && (forall i | 0 <= i < |s| - 1 :: !(s[i] == '/' && s[i + 1] == '/'))
    && s != "" && s[|s| - 1] != '/'
  }

  predicate PathBody(s: string) {
    s != "" && s[0] != '/' && SingleSlashes(s)
  }

  lemma SlashesTail(s: string)
    requires |s| > 1
    ensures SingleSlashes(s) <==>
            && (InName(s[0]) || s[0] == '/') && !(s[0] == '/' && s[1] == '/')
            && SingleSlashes(s[1..])
  {
    var t := s[1..];
    assert forall i | 0 <= i < |t| :: t[i] == s[i + 1];
    if SingleSlashes(t) && !(s[0] == '/' && s[1] == '/') {
      assert forall i | 0 < i < |s| - 1 :: !(t[i - 1] == '/' && t[i] == '/') && s[i] == t[i - 1];
    }
  }

  lemma PiecesFirst(first: string, c: char, rest: seq<string>)
    requires c != '/'
    ensures AllIdentifiers([[c] + first] + rest) <==>
            InName(c) && (first == "" || Identifier(first)) && AllIdentifiers(rest)
  {
    var all := [[c] + first] + rest;
    var s := [c] + first;
    assert all[0] == s && s[0] == c;
    assert forall i | 0 < i < |s| :: s[i] == first[i - 1];
    assert forall i | 0 <= i < |first| :: first[i] == s[i + 1];
    assert forall i | 0 < i < |all| :: all[i] == rest[i - 1];
    assert forall i | 0 <= i < |rest| :: rest[i] == all[i + 1];
  }

  /** Splitting at slashes and checking every piece is the same as looking at each character once. */
  lemma {:induction false} PathPieces(s: string)
    ensures AllIdentifiers(Split(s)) <==> PathBody(s)
  {
    if s == "" {
      assert !Identifier(Split(s)[0]);
    } else if s[0] == '/' {
      assert !Identifier(Split(s)[0]);
    } else {
      var t := s[1..];
      var rest := Split(t);
      PathPieces(t);
      PiecesFirst(rest[0], s[0], rest[1..]);
      assert rest == [rest[0]] + rest[1..];
      if t == "" {
        assert SingleSlashes(s) <==> InName(s[0]);
      } else {
        SlashesTail(s);
        assert AllIdentifiers(rest) <==> Identifier(rest[0]) && AllIdentifiers(rest[1..]);
        if t[0] == '/' {
          var u := t[1..];
          PathPieces(u);
          assert rest == [""] + Split(u) && rest[1..] == Split(u);
          if u == "" {
            assert !SingleSlashes(t);
          } else {
            SlashesTail(t);
          }
        } else {
          assert rest[0] != "";
        }
      }
    }
  }

  lemma RouteShape(s: string)
    ensures Route(s) <==> |s| >= 2 && s[0] == '/' && PathBody(s[1..])
  {
    if s != "" {
      PathPieces(s[1..]);
    }
  }

  /** Trimming every leading slash of a route takes exactly one. */
  lemma TrimRoute(s: string)
    requires Route(s)
    ensures TrimSlashes(s) == s[1..] && s == "/" + TrimSlashes(s)
  {
    RouteShape(s);
    assert TrimSlashes(s[1..]) == s[1..];
  }

  // ---------- Decimal numbers ----------

  predicate IsDigit(c: char) {
    '0' <= c <= '9'
  }

  predicate IsNumber(s: string) {
    s != [] && forall i | 0 <= i < |s| :: IsDigit(s[i])
  }

  function Number(s: string): nat
    requires forall i | 0 <= i < |s| :: IsDigit(s[i])
  {
    if s == [] then 0 else
    assert IsDigit(s[|s| - 1]);
    10 * Number(s[..|s| - 1]) + (s[|s| - 1] - '0') as nat
  }

  /** Digits only, and no zero in front of another digit. */
  predicate Canonical(s: string) {
    IsNumber(s) && (|s| > 1 ==> s[0] != '0')
  }

  /** The decimal numeral of a number; reading it back gives the number, so distinct numbers have distinct numerals. */
  function Decimal(n: nat): (s: string)
    ensures Canonical(s) && Number(s) == n
    ensures n > 0 ==> s[0] != '0'
  {
    var digit := [(n % 10) as char + '0'];
    if n < 10 then digit else Decimal(n / 10) + digit
  }

  /** No other numeral without needless zeros reads as that number. */
  lemma {:induction false} DecimalOnly(s: string)
    requires Canonical(s)
    ensures s == Decimal(Number(s))
    decreases |s|
  {
    var init, last := s[..|s| - 1], s[|s| - 1];
    assert s == init + [last];
    assert IsDigit(last) && Number(s) == 10 * Number(init) + (last - '0') as nat;
    DigitsOf(Number(init), (last - '0') as nat);
    if init != [] {
      DecimalOnly(init);
      CanonicalPositive(init);
    }
    hide Number;
  }

  lemma DigitsOf(tens: nat, digit: nat)
    requires digit < 10
    ensures (10 * tens + digit) / 10 == tens && (10 * tens + digit) % 10 == digit
  {
  }

  lemma {:induction false} CanonicalPositive(s: string)
    requires IsNumber(s) && s[0] != '0'
    ensures Number(s) > 0
    decreases |s|
  {
    if |s| > 1 {
      CanonicalPositive(s[..|s| - 1]);
    } else {
      assert s[..0] == [];
    }
  }
}
