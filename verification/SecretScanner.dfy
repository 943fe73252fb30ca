/** The value scanner of `redact_secrets`: a leftmost, greedy, case-insensitive search for
    bearer tokens, `sk-` keys and `ghp_` keys (ASCII only), each replaced by three stars. */
module SecretScanner {

  datatype CharClass = Space | Alnum | Token

  function Lower(c: char): char {
    if 'A' <= c <= 'Z' then c + 32 as char else c
  }

  predicate In(cls: CharClass, c: char) {
    var d := Lower(c);
    match cls
    case Space => d == ' ' || '\t' <= d <= '\r' || '\U{1c}' <= d <= '\U{1f}'
    case Alnum => 'a' <= d <= 'z' || '0' <= d <= '9'
    case Token => 'a' <= d <= 'z' || '0' <= d <= '9' || d in "._-+=/"
  }

  /** `w` is a lower-case literal. */
  predicate StartsWith(s: string, w: string) {
    |w| <= |s| && forall i | 0 <= i < |w| :: Lower(s[i]) == w[i]
  }

  predicate AllIn(cls: CharClass, s: string) {
    forall i | 0 <= i < |s| :: In(cls, s[i])
  }

  /** How far a greedy character class reaches. */
  function Span(cls: CharClass, s: string): (n: nat)
    ensures n <= |s| && AllIn(cls, s[..n]) && (n < |s| ==> !In(cls, s[n]))
  {
    if |s| == 0 || !In(cls, s[0]) then 0 else 1 + Span(cls, s[1..])
  }

  // The language of the regular expression, stated without saying how it is searched for.

  ghost predicate IsBearer(w: string, k: nat) {
    && 1 <= k && 14 + k <= |w|
    && StartsWith(w, "bearer") && AllIn(Space, w[6..6 + k]) && AllIn(Token, w[6 + k..])
  }

  ghost predicate IsKey(w: string, prefix: string, least: nat) {
    |prefix| + least <= |w| && StartsWith(w, prefix) && AllIn(Alnum, w[|prefix|..])
  }

  ghost predicate IsSecret(w: string) {
    (exists k: nat :: IsBearer(w, k)) || IsKey(w, "sk-", 16) || IsKey(w, "ghp_", 20)
  }

  // The search: each alternative is greedy, and they are tried in order.

  function BearerLen(s: string): (n: nat)
    ensures n <= |s|
  {
    if !StartsWith(s, "bearer") then 0 else
      var k := Span(Space, s[6..]);
      var n := Span(Token, s[6 + k..]);
      if k >= 1 && n >= 8 then 6 + k + n else 0
  }

  function KeyLen(s: string, prefix: string, least: nat): (n: nat)
    ensures n <= |s|
  {
    if !StartsWith(s, prefix) then 0 else
      var n := Span(Alnum, s[|prefix|..]);
      if n >= least then |prefix| + n else 0
  }

  /** Length of the match at the front of `s`, zero when there is none. */
  function MatchLen(s: string): (n: nat)
    ensures n <= |s|
  {
    var b := BearerLen(s);
    if b > 0 then b else
      var k := KeyLen(s, "sk-", 16);
      if k > 0 then k else KeyLen(s, "ghp_", 20)
  }

  /** `_SECRET_VALUE_RE.sub("***", s)` */
  function Scan(s: string): string
    decreases |s|
  {
    if |s| == 0 then ""
    else if MatchLen(s) > 0 then
      "***" + Scan(s[MatchLen(s)..])
    else [s[0]] + Scan(s[1..])
  }

  lemma SpanIsLongest(cls: CharClass, s: string, n: nat)
    requires n <= |s| && AllIn(cls, s[..n])
    ensures n <= Span(cls, s)
  {}

  lemma KeyIsMatched(s: string, prefix: string, least: nat, n: nat)
    requires n <= |s| && IsKey(s[..n], prefix, least) && |prefix| > 0
    ensures 0 < n <= KeyLen(s, prefix, least)
  {
    var w := s[..n];
    assert forall i | 0 <= i < |prefix| :: w[i] == s[i];
    assert w[|prefix|..] == s[|prefix|..][..n - |prefix|];
    SpanIsLongest(Alnum, s[|prefix|..], n - |prefix|);
  }

  lemma KeyLenIsKey(s: string, prefix: string, least: nat)
    requires KeyLen(s, prefix, least) > 0
    ensures IsKey(s[..KeyLen(s, prefix, least)], prefix, least)
  {
    var n := Span(Alnum, s[|prefix|..]);
    assert s[..|prefix| + n][|prefix|..] == s[|prefix|..][..n];
  }

  lemma BearerSpaces(s: string, n: nat, k: nat)
    requires n <= |s| && IsBearer(s[..n], k)
    ensures StartsWith(s, "bearer") && Span(Space, s[6..]) == k
  {
    var w := s[..n];
    assert forall i | 0 <= i < 6 :: w[i] == s[i];
    assert w[6..6 + k] == s[6..][..k];
    SpanIsLongest(Space, s[6..], k);
    assert s[6..][k] == w[6 + k..][0] && In(Token, w[6 + k..][0]);
  }

  lemma BearerToken(s: string, n: nat, k: nat)
    requires n <= |s| && IsBearer(s[..n], k)
    ensures 14 + k <= n <= 6 + k + Span(Token, s[6 + k..])
  {
    assert s[..n][6 + k..] == s[6 + k..][..n - 6 - k];
    SpanIsLongest(Token, s[6 + k..], n - 6 - k);
  }

  lemma BearerIsMatched(s: string, n: nat, k: nat)
    requires n <= |s| && IsBearer(s[..n], k)
    ensures 0 < n <= BearerLen(s)
  {
    BearerSpaces(s, n, k);
    BearerToken(s, n, k);
  }

  lemma BearerParts(w: string, k: nat, n: nat)
    requires 1 <= k && 8 <= n && |w| == 6 + k + n
    requires StartsWith(w[..6], "bearer") && AllIn(Space, w[6..6 + k]) && AllIn(Token, w[6 + k..])
    ensures IsBearer(w, k)
  {
    assert forall i | 0 <= i < 6 :: w[i] == w[..6][i];
  }

  lemma BearerLenIsBearer(s: string, k: nat, n: nat)
    requires 1 <= k && 8 <= n && 6 + k + n <= |s| && StartsWith(s, "bearer")
    requires AllIn(Space, s[6..][..k]) && AllIn(Token, s[6 + k..][..n])
    ensures IsBearer(s[..6 + k + n], k)
  {
    var w := s[..6 + k + n];
    assert StartsWith(w[..6], "bearer") by {
      assert forall i | 0 <= i < 6 :: w[..6][i] == s[i];
    }
    assert w[6..6 + k] == s[6..][..k];
    assert w[6 + k..] == s[6 + k..][..n];
    BearerParts(w, k, n);
  }

  lemma GreedyIsSecret(s: string)
    requires MatchLen(s) > 0
    ensures IsSecret(s[..MatchLen(s)])
  {
    if BearerLen(s) > 0 {
      var k := Span(Space, s[6..]);
      BearerLenIsBearer(s, k, Span(Token, s[6 + k..]));
    } else if KeyLen(s, "sk-", 16) > 0 {
      KeyLenIsKey(s, "sk-", 16);
    } else {
      KeyLenIsKey(s, "ghp_", 20);
    }
  }

  /** The three alternatives start with different letters, so at most one of them matches. */
  lemma OneAlternative(s: string)
    ensures BearerLen(s) > 0 ==> |s| > 0 && Lower(s[0]) == 'b'
    ensures KeyLen(s, "sk-", 16) > 0 ==> |s| > 0 && Lower(s[0]) == 's'
    ensures KeyLen(s, "ghp_", 20) > 0 ==> |s| > 0 && Lower(s[0]) == 'g'
  {
    assert StartsWith(s, "bearer") ==> Lower(s[0]) == "bearer"[0];
    assert StartsWith(s, "sk-") ==> Lower(s[0]) == "sk-"[0];
    assert StartsWith(s, "ghp_") ==> Lower(s[0]) == "ghp_"[0];
  }

  lemma SecretIsMatched(s: string, n: nat)
    requires n <= |s| && IsSecret(s[..n])
    ensures 0 < n <= MatchLen(s)
  {
    OneAlternative(s);
    if k: nat :| IsBearer(s[..n], k) {
      BearerIsMatched(s, n, k);
    } else if IsKey(s[..n], "sk-", 16) {
      KeyIsMatched(s, "sk-", 16, n);
    } else {
      KeyIsMatched(s, "ghp_", 20, n);
    }
  }

  /** The greedy matcher finds exactly the longest prefix in the language. */
  lemma MatchLenIsLongest(s: string)
    ensures MatchLen(s) > 0 ==> IsSecret(s[..MatchLen(s)])
    ensures forall n | 0 <= n <= |s| && IsSecret(s[..n]) :: 0 < n <= MatchLen(s)
  {
    if MatchLen(s) > 0 { GreedyIsSecret(s); }
    forall n | 0 <= n <= |s| && IsSecret(s[..n]) ensures 0 < n <= MatchLen(s) { SecretIsMatched(s, n); }
  }

  lemma NoStarInSecret(w: string)
    requires IsSecret(w)
    ensures |w| > 0 && '*' !in w
  {
    forall i | 0 <= i < |w| ensures w[i] != '*' {
      if k: nat :| IsBearer(w, k) {
        if 6 <= i < 6 + k { assert w[i] == w[6..6 + k][i - 6]; }
        if 6 + k <= i { assert w[i] == w[6 + k..][i - 6 - k]; }
      } else if IsKey(w, "sk-", 16) {
        if 3 <= i { assert w[i] == w[3..][i - 3]; }
      } else {
        if 4 <= i { assert w[i] == w[4..][i - 4]; }
      }
    }
  }

  /** Where the first match starts. */
  function FirstMatch(s: string): (k: nat)
    ensures k <= |s|
  {
    if |s| == 0 || MatchLen(s) > 0 then 0 else 1 + FirstMatch(s[1..])
  }

  /** Up to the first match the output copies the input; a star follows unless all was copied. */
  ghost predicate CopiesTo(s: string, r: string, k: nat) {
    k <= |s| && k <= |r| && r[..k] == s[..k] && (if k == |s| then r == s else k < |r| && r[k] == '*')
  }

  lemma CopiesOneMore(c: char, s: string, r: string, k: nat)
    requires CopiesTo(s, r, k)
    ensures CopiesTo([c] + s, [c] + r, k + 1)
  {
    assert ([c] + r)[..k + 1] == [c] + r[..k];
    assert ([c] + s)[..k + 1] == [c] + s[..k];
  }

  lemma {:induction false} ScanCopiesPrefix(s: string)
    ensures CopiesTo(s, Scan(s), FirstMatch(s))
  {
    if |s| > 0 && MatchLen(s) == 0 {
      ScanCopiesPrefix(s[1..]);
      CopiesOneMore(s[0], s[1..], Scan(s[1..]), FirstMatch(s[1..]));
      assert s == [s[0]] + s[1..];
    }
  }

  /** A secret cannot run over a star, so one at the front of the output is one of the input. */
  lemma SecretBeforeStar(s: string, r: string, k: nat, n: nat)
    requires CopiesTo(s, r, k) && n <= |r| && IsSecret(r[..n])
    ensures n <= k && s[..n] == r[..n]
  {
    NoStarInSecret(r[..n]);
    assert forall i | 0 <= i < n :: r[..n][i] == r[i];
    assert n <= k ==> s[..n] == s[..k][..n] && r[..n] == r[..k][..n];
  }

  lemma NoSecretAtFront(s: string, n: nat)
    requires MatchLen(s) == 0 && n <= |Scan(s)|
    ensures !IsSecret(Scan(s)[..n])
  {
    if IsSecret(Scan(s)[..n]) {
      ScanCopiesPrefix(s);
      SecretBeforeStar(s, Scan(s), FirstMatch(s), n);
      SecretIsMatched(s, n);
    }
  }

  ghost predicate HasSecret(s: string) {
    exists i: nat, n: nat | i <= n <= |s| :: IsSecret(s[i..n])
  }

  lemma CleanBehindChar(c: char, r: string)
    requires !HasSecret(r) && forall n | 0 <= n <= |r| + 1 :: !IsSecret(([c] + r)[..n])
    ensures !HasSecret([c] + r)
  {
    var t := [c] + r;
    forall i: nat, n: nat | i <= n <= |t| ensures !IsSecret(t[i..n]) {
      if i == 0 {
        assert t[0..n] == t[..n];
      } else {
        assert t[i..n] == r[i - 1..n - 1];
      }
    }
  }

  lemma CleanBehindStar(r: string)
    requires !HasSecret(r)
    ensures !HasSecret("*" + r)
  {
    var t := ['*'] + r;
    forall n | 0 <= n <= |t| ensures !IsSecret(t[..n]) {
      if n > 0 { assert t[..n][0] == '*'; }
      if IsSecret(t[..n]) { NoStarInSecret(t[..n]); }
    }
    CleanBehindChar('*', r);
  }

  /** The output contains no secret anywhere. */
  lemma {:induction false} ScanLeavesNoSecret(s: string)
    ensures !HasSecret(Scan(s))
    decreases |s|
  {
    if |s| == 0 {
      forall i: nat, n: nat | i <= n <= |Scan(s)| ensures !IsSecret(Scan(s)[i..n]) {
        if IsSecret(Scan(s)[i..n]) { NoStarInSecret(Scan(s)[i..n]); }
      }
    } else if MatchLen(s) > 0 {
      var r := Scan(s[MatchLen(s)..]);
      ScanLeavesNoSecret(s[MatchLen(s)..]);
      CleanBehindStar(r);
      CleanBehindStar("*" + r);
      CleanBehindStar("*" + ("*" + r));
      assert "***" + r == "*" + ("*" + ("*" + r));
    } else {
      var r := Scan(s[1..]);
      ScanLeavesNoSecret(s[1..]);
      forall n | 0 <= n <= |r| + 1 ensures !IsSecret(([s[0]] + r)[..n]) { NoSecretAtFront(s, n); }
      CleanBehindChar(s[0], r);
    }
  }

  lemma MatchAtFront(s: string)
    requires MatchLen(s) > 0
    ensures IsSecret(s[0..MatchLen(s)])
  {
    GreedyIsSecret(s);
    assert s[0..MatchLen(s)] == s[..MatchLen(s)];
  }

  lemma {:induction false} ScanKeepsClean(s: string)
    requires !HasSecret(s)
    ensures Scan(s) == s
    decreases |s|
  {
    if |s| > 0 {
      if MatchLen(s) > 0 {
        MatchAtFront(s);
      } else {
        forall i: nat, n: nat | i <= n <= |s[1..]| ensures !IsSecret(s[1..][i..n]) {
          assert s[1..][i..n] == s[i + 1..n + 1];
        }
        ScanKeepsClean(s[1..]);
        assert s == [s[0]] + s[1..];
      }
    }
  }

  /** A string is unchanged by the scanner exactly when it holds no secret. */
  lemma ScanFixedIffClean(s: string)
    ensures Scan(s) == s <==> !HasSecret(s)
  {
    ScanLeavesNoSecret(s);
    if !HasSecret(s) { ScanKeepsClean(s); }
  }

  lemma ScanIdempotent(s: string)
    ensures Scan(Scan(s)) == Scan(s)
  {
    ScanLeavesNoSecret(s);
    ScanKeepsClean(Scan(s));
  }

  /** The longest secret that starts at `i`, where no secret starts earlier. */
  ghost predicate LeftmostLongest(s: string, i: nat, m: nat) {
    && i + m <= |s| && IsSecret(s[i..i + m])
    && (forall e | i + m < e <= |s| :: !IsSecret(s[i..e]))
    && (forall j: nat, e: nat | j < i && j <= e <= |s| :: !IsSecret(s[j..e]))
  }

  lemma LeftmostInTail(s: string, i: nat, m: nat)
    requires LeftmostLongest(s, i, m) && i > 0
    ensures LeftmostLongest(s[1..], i - 1, m) && MatchLen(s) == 0
  {
    var t := s[1..];
    assert forall j: nat, e: nat | j <= e <= |t| :: t[j..e] == s[j + 1..e + 1];
    if MatchLen(s) > 0 {
      MatchAtFront(s);
    }
  }

  lemma LeftmostAtFront(s: string, m: nat)
    requires LeftmostLongest(s, 0, m)
    ensures MatchLen(s) == m > 0
  {
    assert s[0..m] == s[..m];
    SecretIsMatched(s, m);
    MatchAtFront(s);
  }

  lemma Reassembled(s: string, i: nat, m: nat, r: string)
    requires 1 <= i && i + m <= |s|
    ensures [s[0]] + (s[1..][..i - 1] + "***" + r) == s[..i] + "***" + r
    ensures s[1..][i - 1 + m..] == s[i + m..]
  {
    assert s[..i] == [s[0]] + s[1..][..i - 1];
  }

  lemma ScanUnfolds(s: string)
    requires s != ""
    ensures Scan(s) == if MatchLen(s) > 0 then "***" + Scan(s[MatchLen(s)..]) else [s[0]] + Scan(s[1..])
  {
    hide MatchLen;
  }

  lemma LeftmostFits(s: string, i: nat, m: nat)
    requires LeftmostLongest(s, i, m)
    ensures i + m <= |s| && s != ""
  {
    hide MatchLen, BearerLen, KeyLen;
    if s == "" { SecretIsMatched(s, 0); }
  }

  /** What one substitution does: the leftmost secret, at its longest, becomes three stars and
      the search goes on behind it. With `ScanFixedIffClean` this determines the scanner. */
  lemma {:induction false} ScanReplacesLeftmost(s: string, i: nat, m: nat)
    requires LeftmostLongest(s, i, m)
    ensures i + m <= |s| && Scan(s) == s[..i] + "***" + Scan(s[i + m..])
    decreases i
  {
    hide *;
    LeftmostFits(s, i, m);
    ScanUnfolds(s);
    var r := Scan(s[i + m..]);
    if i == 0 {
      LeftmostAtFront(s, m);
      assert s[..0] + "***" + r == "***" + r;
    } else {
      LeftmostInTail(s, i, m);
      ScanReplacesLeftmost(s[1..], i - 1, m);
      Reassembled(s, i, m, r);
    }
  }

  /** Every secret has at least fifteen characters. */
  lemma ShortIsClean(s: string)
    requires |s| < 15
    ensures Scan(s) == s && !HasSecret(s)
  {
    ScanFixedIffClean(s);
  }

  lemma KeyOfParts(prefix: string, rest: string, least: nat)
    requires StartsWith(prefix, prefix) && AllIn(Alnum, rest) && |rest| >= least
    ensures IsKey(prefix + rest, prefix, least)
  {
    hide AllIn;
    assert (prefix + rest)[|prefix|..] == rest;
    assert forall i | 0 <= i < |prefix| :: (prefix + rest)[i] == prefix[i];
  }

  lemma SkKey(rest: string)
    requires AllIn(Alnum, rest) && |rest| >= 16
    ensures IsSecret("sk-" + rest)
  {
    hide AllIn, IsKey, IsBearer;
    KeyOfParts("sk-", rest, 16);
  }

  lemma SecretSuffix(a: string, w: string)
    requires IsSecret(w)
    ensures HasSecret(a + w)
  {
    hide IsSecret;
    assert (a + w)[|a|..|a + w|] == w;
  }

  /** A task id may look like a key: `task-` and sixteen alphanumerics is rewritten. */
  lemma TaskIdLooksLikeKey(rest: string)
    requires AllIn(Alnum, rest) && |rest| >= 16
    ensures HasSecret("task-" + rest) && Scan("task-" + rest) != "task-" + rest
  {
    hide *;
    SkKey(rest);
    SecretSuffix("ta", "sk-" + rest);
    assert "ta" + ("sk-" + rest) == "task-" + rest;
    ScanFixedIffClean("task-" + rest);
  }

  // The identifiers the program draws hold no secret.

  /** The characters of the ids drawn as `exec-`, `job-`, `sess-` or `ws-` and hexadecimal digits. */
  predicate IdChar(c: char) { 'a' <= c <= 'f' || '0' <= c <= '9' || c in "execjobsws-" }

  /** Every secret has a letter that no drawn id has. */
  lemma NoSecretInIds(s: string)
    requires forall c | c in s :: IdChar(c)
    ensures !HasSecret(s)
  {
    hide IsSecret, IdChar;
    forall i: nat, n: nat | i <= n <= |s| ensures !IsSecret(s[i..n]) {
      var w := s[i..n];
      assert forall k | 0 <= k < |w| :: w[k] == s[i + k] && w[k] in s;
      if IsSecret(w) { TellsItself(w); }
    }
  }

  lemma TellsItself(w: string)
    requires IsSecret(w)
    ensures exists k :: 0 <= k < |w| && !IdChar(w[k])
  {
    hide AllIn;
    if IsKey(w, "sk-", 16) {
      assert !IdChar(w[1]);
    } else if IsKey(w, "ghp_", 20) {
      assert !IdChar(w[0]);
    } else {
      assert !IdChar(w[5]);
    }
  }

  // The language, character by character

  predicate IsDigitOrLetter(c: char) { '0' <= c <= '9' || 'A' <= c <= 'Z' || 'a' <= c <= 'z' }

  lemma Classes(c: char)
    ensures In(Space, c) <==> c in {' ', '\t', '\n', '\U{b}', '\U{c}', '\r', '\U{1c}', '\U{1d}', '\U{1e}', '\U{1f}'}
    ensures In(Alnum, c) <==> IsDigitOrLetter(c)
    ensures In(Token, c) <==> IsDigitOrLetter(c) || c in {'.', '_', '-', '+', '=', '/'}
  {}

  /** Letters match in either case, and nothing else is folded. */
  lemma CaseFolds(s: string, w: string)
    ensures StartsWith(s, w) <==>
      |w| <= |s| && forall i | 0 <= i < |w| :: if 'A' <= s[i] <= 'Z' then s[i] as int + 32 == w[i] as int else s[i] == w[i]
  {}

  lemma FrontsDiffer(s: string)
    ensures StartsWith(s, "sk-") ==> !StartsWith(s, "ghp_") && !StartsWith(s, "bearer")
    ensures StartsWith(s, "ghp_") ==> !StartsWith(s, "bearer")
  {
    assert StartsWith(s, "sk-") ==> Lower(s[0]) == "sk-"[0];
    assert StartsWith(s, "ghp_") ==> Lower(s[0]) == "ghp_"[0];
    assert StartsWith(s, "bearer") ==> Lower(s[0]) == "bearer"[0];
  }

  /** `sk-` and exactly what follows it: sixteen or more letters and digits. */
  lemma SkSecretIff(rest: string)
    ensures IsSecret("sk-" + rest) <==> |rest| >= 16 && forall i | 0 <= i < |rest| :: IsDigitOrLetter(rest[i])
  {
    var w := "sk-" + rest;
    assert w[3..] == rest && StartsWith(w, "sk-");
    FrontsDiffer(w);
    assert AllIn(Alnum, rest) <==> forall i | 0 <= i < |rest| :: IsDigitOrLetter(rest[i]) by { AllAlnum(rest); }
  }

  /** `ghp_` and twenty or more letters and digits. */
  lemma GhpSecretIff(rest: string)
    ensures IsSecret("ghp_" + rest) <==> |rest| >= 20 && forall i | 0 <= i < |rest| :: IsDigitOrLetter(rest[i])
  {
    var w := "ghp_" + rest;
    assert w[4..] == rest && StartsWith(w, "ghp_");
    FrontsDiffer(w);
    assert AllIn(Alnum, rest) <==> forall i | 0 <= i < |rest| :: IsDigitOrLetter(rest[i]) by { AllAlnum(rest); }
  }

  lemma AllAlnum(s: string)
    ensures AllIn(Alnum, s) <==> forall i | 0 <= i < |s| :: IsDigitOrLetter(s[i])
  {
    forall i | 0 <= i < |s| ensures In(Alnum, s[i]) <==> IsDigitOrLetter(s[i]) { Classes(s[i]); }
  }

  /** `bearer`, one or more blanks, and eight or more token characters. */
  lemma BearerSecretIff(gap: string, token: string)
    requires forall i | 0 <= i < |gap| :: In(Space, gap[i])
    requires token != "" ==> !In(Space, token[0])
    ensures IsSecret("bearer" + gap + token) <==> gap != "" && |token| >= 8 && forall i | 0 <= i < |token| :: In(Token, token[i])
  {
    var w := "bearer" + gap + token;
    assert StartsWith(w, "bearer");
    FrontsDiffer(w);
    assert w[6..6 + |gap|] == gap && w[6 + |gap|..] == token;
    if gap != "" && |token| >= 8 && AllIn(Token, token) { assert IsBearer(w, |gap|); }
    if IsSecret(w) {
      var k: nat :| IsBearer(w, k);
      GapIsUnique(w, gap, token, k);
    }
  }

  lemma GapIsUnique(w: string, gap: string, token: string, k: nat)
    requires w == "bearer" + gap + token && IsBearer(w, k) && AllIn(Space, gap) && (token != "" ==> !In(Space, token[0]))
    ensures k == |gap|
  {
    hide In, IsBearer;
    assert w[..|w|] == w;
    BearerSpaces(w, |w|, k);
    var rest := w[6..];
    assert rest == gap + token && rest[..|gap|] == gap;
    SpanStops(Space, rest, |gap|);
  }

  lemma {:induction false} SpanStops(cls: CharClass, s: string, m: nat)
    requires m <= |s| && AllIn(cls, s[..m]) && (m < |s| ==> !In(cls, s[m]))
    ensures Span(cls, s) == m
  {
    if m > 0 {
      assert s[..m][0] == s[0];
      assert s[1..][..m - 1] == s[..m][1..];
      SpanStops(cls, s[1..], m - 1);
    }
  }
}
