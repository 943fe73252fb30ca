/** JSON-like values and `redact_secrets`: the depth-bounded rewrite that every snapshot goes through. */
module Redaction {
  import opened SecretScanner

  datatype Json =
    | Null
    | Bool(b: bool)
    | Int(i: int)
    | Num(r: real)
    | Str(s: string)
    | List(items: seq<Json>)
    | Dict(fields: Fields)

  type Fields = map<string, Json>

  predicate SecretHere(k: string) {
    StartsWith(k, "apikey") || StartsWith(k, "api_key") || StartsWith(k, "api-key")
    || StartsWith(k, "token") || StartsWith(k, "secret") || StartsWith(k, "password")
    || StartsWith(k, "credential") || StartsWith(k, "authorization") || StartsWith(k, "bearer")
    || StartsWith(k, "privatekey") || StartsWith(k, "private_key") || StartsWith(k, "private-key")
  }

  /** `_SECRET_KEY_RE.search(k)` */
  predicate SecretKey(k: string) {
    exists i | 0 <= i <= |k| :: SecretHere(k[i..])
  }

  const MAX_DEPTH: nat := 8

  function Redact(v: Json, depth: nat): Json
    decreases v
  {
    if depth > MAX_DEPTH then Str("<max-depth>") else
    match v
    case Dict(f) => Dict(map k | k in f :: if SecretKey(k) then Str("***") else Redact(f[k], depth + 1))
    case List(xs) => List(seq(|xs|, i requires 0 <= i < |xs| => Redact(xs[i], depth + 1)))
    case Str(s) => Str(Scan(s))
    case _ => v
  }

  /** The entries of a dictionary that is itself at `depth`. */
  function RedactFields(f: Fields, depth: nat): Fields {
    map k | k in f :: if SecretKey(k) then Str("***") else Redact(f[k], depth + 1)
  }

  function Max(a: nat, b: nat): nat { if a < b then b else a }

  lemma LabelsAreClean()
    ensures Scan("<max-depth>") == "<max-depth>" && Scan("***") == "***"
  {
    ShortIsClean("<max-depth>");
    ShortIsClean("***");
  }

  lemma RedactDictFields(f: Fields, d: nat)
    requires d <= MAX_DEPTH
    ensures Redact(Dict(f), d) == Dict(RedactFields(f, d))
  {}

  lemma RedactFieldsTwice(f: Fields, d: nat, e: nat, m: nat)
    requires forall k | k in f :: Redact(Redact(f[k], d + 1), e + 1) == Redact(f[k], m + 1)
    ensures RedactFields(RedactFields(f, d), e) == RedactFields(f, m)
  {
    hide Redact, SecretKey;
    var g := RedactFields(f, d);
    var h := RedactFields(g, e);
    forall k | k in f ensures h[k] == RedactFields(f, m)[k] {
      if SecretKey(k) {
        assert h[k] == Str("***");
      } else {
        assert g[k] == Redact(f[k], d + 1);
        assert h[k] == Redact(g[k], e + 1);
      }
    }
  }

  function RedactItems(xs: seq<Json>, depth: nat): seq<Json> {
    seq(|xs|, i requires 0 <= i < |xs| => Redact(xs[i], depth + 1))
  }

  lemma RedactListItems(xs: seq<Json>, d: nat)
    requires d <= MAX_DEPTH
    ensures Redact(List(xs), d) == List(RedactItems(xs, d))
  {}

  lemma RedactItemsTwice(xs: seq<Json>, d: nat, e: nat, m: nat)
    requires forall i | 0 <= i < |xs| :: Redact(Redact(xs[i], d + 1), e + 1) == Redact(xs[i], m + 1)
    ensures RedactItems(RedactItems(xs, d), e) == RedactItems(xs, m)
  {
    hide Redact;
  }

  lemma RedactAtomTwice(v: Json, d: nat, e: nat)
    requires d <= MAX_DEPTH && e <= MAX_DEPTH ==> !v.Dict? && !v.List?
    ensures Redact(Redact(v, d), e) == Redact(v, Max(d, e))
  {
    hide Scan, SecretKey;
    LabelsAreClean();
    if d <= MAX_DEPTH && e <= MAX_DEPTH && v.Str? { ScanIdempotent(v.s); }
  }

  /** Redacting at one depth and then at another is redacting once at the larger. */
  lemma {:induction false} RedactCompose(v: Json, d: nat, e: nat)
    ensures Redact(Redact(v, d), e) == Redact(v, Max(d, e))
    decreases v
  {
    hide Redact, RedactFields, RedactItems;
    var m := Max(d, e);
    if m > MAX_DEPTH || (!v.Dict? && !v.List?) {
      RedactAtomTwice(v, d, e);
    } else if v.Dict? {
      var f := v.fields;
      forall k | k in f ensures Redact(Redact(f[k], d + 1), e + 1) == Redact(f[k], m + 1) {
        RedactCompose(f[k], d + 1, e + 1);
      }
      RedactFieldsTwice(f, d, e, m);
      RedactDictFields(f, d);
      RedactDictFields(RedactFields(f, d), e);
      RedactDictFields(f, m);
    } else {
      var xs := v.items;
      forall i | 0 <= i < |xs| ensures Redact(Redact(xs[i], d + 1), e + 1) == Redact(xs[i], m + 1) {
        RedactCompose(xs[i], d + 1, e + 1);
      }
      RedactItemsTwice(xs, d, e, m);
      RedactListItems(xs, d);
      RedactListItems(RedactItems(xs, d), e);
      RedactListItems(xs, m);
    }
  }

  lemma RedactFieldsCompose(f: Fields, d: nat, e: nat)
    ensures RedactFields(RedactFields(f, d), e) == RedactFields(f, Max(d, e))
  {
    hide Redact, RedactFields;
    forall k | k in f ensures Redact(Redact(f[k], d + 1), e + 1) == Redact(f[k], Max(d, e) + 1) {
      RedactCompose(f[k], d + 1, e + 1);
    }
    RedactFieldsTwice(f, d, e, Max(d, e));
  }

  /** What a redacted value looks like, stated without the rewrite: no secret in any string, stars
      under every secret-looking key, nothing but the cut-off label below the depth limit. */
  ghost predicate Clean(v: Json, depth: nat)
    decreases v
  {
    if depth > MAX_DEPTH then v == Str("<max-depth>") else
    match v
    case Dict(f) => forall k | k in f :: if SecretKey(k) then f[k] == Str("***") else Clean(f[k], depth + 1)
    case List(xs) => forall i | 0 <= i < |xs| :: Clean(xs[i], depth + 1)
    case Str(s) => !HasSecret(s)
    case _ => true
  }

  lemma {:induction false} RedactedIsClean(v: Json, d: nat)
    ensures Clean(Redact(v, d), d)
    decreases v
  {
    if d <= MAX_DEPTH {
      match v
      case Dict(f) => forall k | k in f ensures Clean(Redact(f[k], d + 1), d + 1) { RedactedIsClean(f[k], d + 1); }
      case List(xs) => forall i | 0 <= i < |xs| ensures Clean(Redact(xs[i], d + 1), d + 1) { RedactedIsClean(xs[i], d + 1); }
      case Str(s) => ScanLeavesNoSecret(s);
      case _ =>
    }
  }

  lemma {:induction false} CleanIsKept(v: Json, d: nat)
    requires Clean(v, d)
    ensures Redact(v, d) == v
    decreases v
  {
    if d <= MAX_DEPTH {
      match v
      case Dict(f) => forall k | k in f && !SecretKey(k) ensures Redact(f[k], d + 1) == f[k] { CleanIsKept(f[k], d + 1); }
      case List(xs) => forall i | 0 <= i < |xs| ensures Redact(xs[i], d + 1) == xs[i] { CleanIsKept(xs[i], d + 1); }
      case Str(s) => ScanKeepsClean(s);
      case _ =>
    }
  }

  /** A value survives redaction unchanged exactly when it is clean. */
  lemma RedactFixedIffClean(v: Json, d: nat)
    ensures Redact(v, d) == v <==> Clean(v, d)
  {
    RedactedIsClean(v, d);
    if Clean(v, d) { CleanIsKept(v, d); }
  }

  // Merging checkpoints: `dict.update` commutes with redaction.

  lemma RedactMerge(f: Fields, g: Fields, d: nat)
    ensures RedactFields(f + g, d) == RedactFields(f, d) + RedactFields(g, d)
  {}

  // The key names used by the snapshots are not secret-looking.

  predicate Lead(a: char, b: char, c: char, d: char) {
    || (a == 'a' && b == 'p' && c == 'i' && (d == 'k' || d == '_' || d == '-'))
    || (a == 't' && b == 'o' && c == 'k' && d == 'e')
    || (a == 's' && b == 'e' && c == 'c' && d == 'r')
    || (a == 'p' && b == 'a' && c == 's' && d == 's')
    || (a == 'c' && b == 'r' && c == 'e' && d == 'd')
    || (a == 'a' && b == 'u' && c == 't' && d == 'h')
    || (a == 'b' && b == 'e' && c == 'a' && d == 'r')
    || (a == 'p' && b == 'r' && c == 'i' && d == 'v')
  }

  lemma LeadOfSecret(k: string)
    requires SecretHere(k)
    ensures |k| >= 4 && Lead(Lower(k[0]), Lower(k[1]), Lower(k[2]), Lower(k[3]))
  {}

  lemma NoLeadNoSecret(k: string)
    requires forall i | 0 <= i < |k| - 3 :: !Lead(Lower(k[i]), Lower(k[i + 1]), Lower(k[i + 2]), Lower(k[i + 3]))
    ensures !SecretKey(k)
  {
    forall i | 0 <= i <= |k| ensures !SecretHere(k[i..]) { if SecretHere(k[i..]) { LeadOfSecret(k[i..]); } }
  }

  // The keys and the depth, spelt out

  function Lowered(s: string): string { seq(|s|, i requires 0 <= i < |s| => Lower(s[i])) }

  lemma FrontIsWord(s: string, w: string)
    ensures StartsWith(s, w) <==> |w| <= |s| && Lowered(s[..|w|]) == w
  {
    if |w| <= |s| {
      if StartsWith(s, w) { assert Lowered(s[..|w|]) == w; }
      if Lowered(s[..|w|]) == w { forall i | 0 <= i < |w| ensures Lower(s[i]) == w[i] { assert Lowered(s[..|w|])[i] == Lower(s[i]); } }
    }
  }

  const SECRET_WORDS := {"apikey", "api_key", "api-key", "token", "secret", "password", "credential", "authorization", "bearer",
                         "privatekey", "private_key", "private-key"}

  lemma SecretHereIs(s: string)
    ensures SecretHere(s) <==> exists w :: w in SECRET_WORDS && StartsWith(s, w)
  {
    hide StartsWith;
    if SecretHere(s) {
      assert forall w | w in ["apikey", "api_key", "api-key", "token", "secret", "password"] :: w in SECRET_WORDS;
      assert forall w | w in ["credential", "authorization", "bearer", "privatekey", "private_key", "private-key"] :: w in SECRET_WORDS;
    }
  }

  /** A key is secret exactly when one of the words stands somewhere in it, in any mixture of cases. */
  lemma SecretKeyIff(k: string)
    ensures SecretKey(k) <==> exists i, j | 0 <= i <= j <= |k| :: Lowered(k[i..j]) in SECRET_WORDS
  {
    hide SecretHere, Lowered, StartsWith;
    if SecretKey(k) {
      var i :| 0 <= i <= |k| && SecretHere(k[i..]);
      SecretHereIs(k[i..]);
      var w :| w in SECRET_WORDS && StartsWith(k[i..], w);
      FrontIsWord(k[i..], w);
      assert k[i..][..|w|] == k[i..i + |w|];
    }
    if exists i, j | 0 <= i <= j <= |k| :: Lowered(k[i..j]) in SECRET_WORDS {
      var i, j :| 0 <= i <= j <= |k| && Lowered(k[i..j]) in SECRET_WORDS;
      var w := Lowered(k[i..j]);
      LoweredLength(k[i..j]);
      assert k[i..][..j - i] == k[i..j];
      FrontIsWord(k[i..], w);
      SecretHereIs(k[i..]);
      assert SecretHere(k[i..]);
    }
  }

  lemma LoweredLength(s: string)
    ensures |Lowered(s)| == |s|
  {}

  /** A value inside `n` lists. */
  function Nested(n: nat, v: Json): Json { if n == 0 then v else List([Nested(n - 1, v)]) }

  /** Eight levels are rewritten; the ninth is cut off. */
  lemma {:induction false} DepthIsEight(n: nat, v: Json, d: nat)
    requires d <= 9
    ensures Redact(Nested(n, v), d) == if d + n <= 8 then Nested(n, Redact(v, d + n)) else Nested(9 - d, Str("<max-depth>"))
    decreases n
  {
    if n > 0 && d <= 8 {
      DepthIsEight(n - 1, v, d + 1);
      var xs := [Nested(n - 1, v)];
      assert Nested(n, v) == List(xs);
      RedactListItems(xs, d);
      assert RedactItems(xs, d) == [Redact(Nested(n - 1, v), d + 1)];
    }
  }
}
