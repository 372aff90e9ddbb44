/**
 Idempotency keys: which requests share one. Gameplay keys are built by `mutation` in
 crates/transport-http/src/gameplay.rs, admin keys by `admin_write_context` in
 crates/transport-http/src/lib.rs.
 */
module StoreKeys {
  import opened Text
  import opened SaveStore

  const COLON := ':'

  /** SHA-256 digests are written with 64 hexadecimal digits, so without colons. */
  predicate ValidDigest(digest: string) {
    |digest| == 64 && COLON !in digest
  }

  predicate WellFormed(r: Request) {
    r.nonce >= 0 && (r.origin.Gameplay? ==> ValidDigest(r.origin.digest))
  }

  lemma {:induction false} NatTextInjective(m: nat, n: nat)
    requires NatText(m) == NatText(n)
    ensures m == n
    decreases m
  {
    var (a, b) := (NatText(m), NatText(n));
    assert a[|a| - 1] == (m % 10 + '0' as int) as char;
    assert b[|b| - 1] == (n % 10 + '0' as int) as char;
    if m >= 10 && n >= 10 {
      assert a[..|a| - 1] == NatText(m / 10);
      assert b[..|b| - 1] == NatText(n / 10);
      NatTextInjective(m / 10, n / 10);
    }
  }

  lemma IntTextShape(n: int)
    ensures COLON !in IntText(n)
    ensures n >= 0 ==> IsDigit(IntText(n)[0])
    ensures n < 0 ==> IntText(n)[0] == '-'
  {
    var t := NatText(if n < 0 then -n else n);
    assert forall i | 0 <= i < |t| :: IsDigit(t[i]);
  }

  lemma IntTextInjective(m: int, n: int)
    requires IntText(m) == IntText(n)
    ensures m == n
  {
    IntTextShape(m);
    IntTextShape(n);
    if m >= 0 {
      NatTextInjective(m, n);
    } else {
      assert IntText(m)[1..] == NatText(-m) && IntText(n)[1..] == NatText(-n);
      NatTextInjective(-m, -n);
    }
  }

  /** Texts split at their first colon in one way only. */
  lemma FirstColon(a: string, b: string, c: string, d: string)
    requires COLON !in a && COLON !in c && a + ":" + b == c + ":" + d
    ensures a == c && b == d
  {
    var (x, y) := (a + ":" + b, c + ":" + d);
    assert x[|a|] == COLON && y[|c|] == COLON;
    assert forall i | 0 <= i < |a| :: x[i] == a[i] && x[i] != COLON;
    assert forall i | 0 <= i < |c| :: y[i] == c[i] && y[i] != COLON;
    assert |a| == |c|;
    assert x[..|a|] == a && y[..|c|] == c;
    assert x[|a| + 1..] == b && y[|c| + 1..] == d;
  }

  /** And at their last colon. */
  lemma LastColon(a: string, b: string, c: string, d: string)
    requires COLON !in b && COLON !in d && a + ":" + b == c + ":" + d
    ensures a == c && b == d
  {
    var (x, y) := (a + ":" + b, c + ":" + d);
    assert x[|a|] == COLON && y[|c|] == COLON;
    assert forall i | |a| < i < |x| :: x[i] == b[i - |a| - 1] && x[i] != COLON;
    assert forall i | |c| < i < |y| :: y[i] == d[i - |c| - 1] && y[i] != COLON;
    assert |a| == |c|;
    assert x[..|a|] == a && y[..|c|] == c;
    assert x[|a| + 1..] == b && y[|c| + 1..] == d;
  }

  /** Four texts joined by colons, of which only the third may contain colons, are told apart. */
  lemma FourParts(a: string, b: string, c: string, d: string, a2: string, b2: string, c2: string, d2: string)
    requires COLON !in a && COLON !in b && COLON !in d && COLON !in a2 && COLON !in b2 && COLON !in d2
    requires a + ":" + b + ":" + c + ":" + d == a2 + ":" + b2 + ":" + c2 + ":" + d2
    ensures a == a2 && b == b2 && c == c2 && d == d2
  {
    var (x, y) := (c + ":" + d, c2 + ":" + d2);
    assert a + ":" + b + ":" + c + ":" + d == a + ":" + (b + ":" + x);
    assert a2 + ":" + b2 + ":" + c2 + ":" + d2 == a2 + ":" + (b2 + ":" + y);
    FirstColon(a, b + ":" + x, a2, b2 + ":" + y);
    FirstColon(b, x, b2, y);
    LastColon(c, d, c2, d2);
  }

  /** Two gameplay requests share a key exactly when nonce, sequence, name and digest agree. */
  lemma GameplayKeysExact(a: Request, b: Request)
    requires WellFormed(a) && WellFormed(b) && a.origin.Gameplay? && b.origin.Gameplay?
    ensures KeyOf(a) == KeyOf(b)
       <==> a.nonce == b.nonce && a.sequence == b.sequence && a.name == b.name && a.origin == b.origin
  {
    if KeyOf(a) == KeyOf(b) {
      IntTextShape(a.nonce);
      IntTextShape(b.nonce);
      IntTextShape(a.sequence);
      IntTextShape(b.sequence);
      hide IntText;
      FourParts(IntText(a.nonce), IntText(a.sequence), a.name, a.origin.digest,
                IntText(b.nonce), IntText(b.sequence), b.name, b.origin.digest);
      IntTextInjective(a.nonce, b.nonce);
      IntTextInjective(a.sequence, b.sequence);
    }
  }

  /** Two admin requests share a key exactly when name and sequence agree, whatever their sessions. */
  lemma AdminKeysExact(a: Request, b: Request)
    requires a.origin.Admin? && b.origin.Admin?
    ensures KeyOf(a) == KeyOf(b) <==> a.sequence == b.sequence && a.name == b.name
  {
    if KeyOf(a) == KeyOf(b) {
      IntTextShape(a.sequence);
      IntTextShape(b.sequence);
      assert KeyOf(a) == "admin:" + a.name + ":" + IntText(a.sequence);
      assert KeyOf(b) == "admin:" + b.name + ":" + IntText(b.sequence);
      LastColon("admin:" + a.name, IntText(a.sequence), "admin:" + b.name, IntText(b.sequence));
      assert ("admin:" + a.name)[6..] == a.name && ("admin:" + b.name)[6..] == b.name;
      IntTextInjective(a.sequence, b.sequence);
    }
  }

  /** A gameplay key is never an admin key. */
  lemma KeysApart(a: Request, b: Request)
    requires WellFormed(a) && a.origin.Gameplay? && b.origin.Admin?
    ensures KeyOf(a) != KeyOf(b)
  {
    IntTextShape(a.nonce);
    assert IntText(a.nonce) != "";
    assert KeyOf(a)[0] == IntText(a.nonce)[0];
    assert KeyOf(b)[0] == 'a';
  }

  /** Requests that share a key agree on sequence and name. */
  lemma SharedKeyAgrees(a: Request, b: Request)
    requires WellFormed(a) && WellFormed(b) && KeyOf(a) == KeyOf(b)
    ensures a.sequence == b.sequence && a.name == b.name && (a.origin.Gameplay? ==> a.nonce == b.nonce && a.origin == b.origin)
    ensures a.origin.Gameplay? <==> b.origin.Gameplay?
  {
    if a.origin.Gameplay? && b.origin.Gameplay? {
      GameplayKeysExact(a, b);
    } else if a.origin.Admin? && b.origin.Admin? {
      AdminKeysExact(a, b);
    } else if a.origin.Gameplay? {
      KeysApart(a, b);
    } else {
      KeysApart(b, a);
    }
  }
}
