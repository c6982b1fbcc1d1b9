/** Per-cluster client certificates: how long they are issued for, when they are replaced, and why the stored
    one is never expired.  Times and durations are nanoseconds; durations saturate as int64 values do. */
module ClientCertificate {
  import opened Kube

  const SECOND := 1_000_000_000
  const MAX_DURATION := 0x7FFF_FFFF_FFFF_FFFF
  const MIN_DURATION := -0x8000_0000_0000_0000

  /** TargetCertValidity: 30 days. */
  const TARGET_VALIDITY := 30 * 24 * 3600 * SECOND
  /** clusterClientCertificateSignerSkew. */
  const SIGNER_SKEW := 2 * SECOND

  /** Time.Sub: the difference, saturating. */
  function Sub(a: int, b: int): int {
    if a - b > MAX_DURATION then MAX_DURATION else if a - b < MIN_DURATION then MIN_DURATION else a - b
  }

  /** Unary minus on int64: the smallest value is its own negation. */
  function Neg(d: int): int { if d == MIN_DURATION then d else -d }

  /** Integer division that truncates toward zero. */
  function Quot(d: int, n: int): int
    requires n > 0
  {
    if d >= 0 then d / n else -((-d) / n)
  }

  datatype Usage = ClientAuth | ServerAuth | OtherUsage

  /** signedWith identifies the key that made the signature, publicKey the key certified. */
  datatype Cert = Cert(subject: string, issuer: string, signedWith: nat, publicKey: nat,
                       notBefore: int, notAfter: int, usages: seq<Usage>)

  datatype CA = CA(name: string, key: nat, notAfter: int)

  datatype CertPem = NoCert | BadCert | Chain(certs: seq<Cert>)
  datatype KeyPem = NoKey | BadKey | KeyOf(publicKey: nat)

  datatype Secret = Secret(crt: CertPem, key: KeyPem)

  /** The signing library: how far it backdates a certificate and to what granularity the encoding keeps time. */
  datatype Signer = Signer(backdate: int, grain: int) {
    predicate Sane() { 0 <= backdate && 0 < grain }

    function Round(t: int): int
      requires 0 < grain
    {
      t - t % grain
    }

    /** MakeClientCertificateForDuration, called at time `at`. */
    function Issue(ca: CA, cluster: string, publicKey: nat, validity: int, at: int): Secret
      requires 0 < grain
    {
      Secret(Chain([Cert(cluster, ca.name, ca.key, publicKey, Round(at - backdate), Round(at + validity), [ClientAuth])]),
             KeyOf(publicKey))
    }
  }

  /** How long a new certificate may live; None when the signer is missing or expires too soon. */
  function TargetValidity(signer: Option<CA>, now: int): Option<int> {
    if signer.None? then None
    else
      var remaining := Sub(signer.value.notAfter, now + SIGNER_SKEW);
      if remaining <= 0 then None
      else Some(if remaining < TARGET_VALIDITY then remaining else TARGET_VALIDITY)
  }

  /** The moment after which a certificate is replaced: a fifth of its lifetime before it expires. */
  function RenewAfter(c: Cert): int { c.notAfter + Quot(Neg(Sub(c.notAfter, c.notBefore)), 5) }

  predicate SignedBy(c: Cert, ca: CA) { c.issuer == ca.name && c.signedWith == ca.key }

  predicate Usable(s: Secret) {
    s.crt.Chain? && s.key.KeyOf? && s.crt.certs != [] && s.crt.certs[0].publicKey == s.key.publicKey
  }

  predicate Valid(s: Secret, bundle: seq<CA>, cluster: string, now: int) {
    && Usable(s)
    && var c := s.crt.certs[0];
       && c.subject == cluster
       && now <= c.notAfter && now <= RenewAfter(c)
       && ClientAuth in c.usages
       && exists ca :: ca in bundle && SignedBy(c, ca)
  }

  // ---- One reconcile ----

  /** touched: when a reconcile last accepted or wrote the stored certificate. */
  datatype State = State(secret: Option<Secret>, touched: int)

  /** issuedAt: when the library reads the clock, a moment after the controller does. */
  datatype Inputs = Inputs(now: int, issuedAt: int, signer: Option<CA>, bundle: seq<CA>, publicKey: nat,
                           loads: bool, write: Outcome)

  function Ensure(lib: Signer, cluster: string, s: State, i: Inputs): State
    requires lib.Sane()
  {
    if !i.loads then s
    else if s.secret.Some? && Valid(s.secret.value, i.bundle, cluster, i.now) then s.(touched := i.now)
    else
      match TargetValidity(i.signer, i.now)
      case None => s
      case Some(validity) =>
        if i.write.Rejected? then s
        else State(Some(lib.Issue(i.signer.value, cluster, i.publicKey, validity, i.issuedAt)), i.issuedAt)
  }

  predicate Succeeds(cluster: string, s: State, i: Inputs) {
    && i.loads
    && ((s.secret.Some? && Valid(s.secret.value, i.bundle, cluster, i.now))
        || (TargetValidity(i.signer, i.now).Some? && i.write.Accepted?))
  }

  function Run(lib: Signer, cluster: string, s: State, calls: seq<Inputs>): State
    requires lib.Sane()
    decreases |calls|
  {
    if calls == [] then s else Run(lib, cluster, Ensure(lib, cluster, s, calls[0]), calls[1..])
  }

  // ---- Issuing ----

  /** For every certificate with an ordinary lifetime the check is: no later than a fifth before expiry. */
  lemma RenewAfterFifth(c: Cert)
    requires 0 <= c.notAfter - c.notBefore <= MAX_DURATION
    ensures RenewAfter(c) == c.notAfter - (c.notAfter - c.notBefore) / 5
  {
  }

  /** A certificate never outlives its signer as long as it is issued within the skew plus one unit of encoded
      time after the validity was computed; when the signer's remaining life was the limit, exactly then. */
  lemma NeverOutlivesSigner(lib: Signer, ca: CA, cluster: string, publicKey: nat, now: int, issuedAt: int)
    requires lib.Sane() && ca.notAfter % lib.grain == 0 && now <= issuedAt
    requires TargetValidity(Some(ca), now).Some?
    ensures var validity := TargetValidity(Some(ca), now).value;
            var c := lib.Issue(ca, cluster, publicKey, validity, issuedAt).crt.certs[0];
            && (issuedAt - now < SIGNER_SKEW + lib.grain ==> c.notAfter <= ca.notAfter)
            && (validity < TARGET_VALIDITY ==>
                  (c.notAfter <= ca.notAfter <==> issuedAt - now < SIGNER_SKEW + lib.grain))
  {
    var validity := TargetValidity(Some(ca), now).value;
    RoundBelow(lib, issuedAt + validity, ca.notAfter);
    assert ca.notAfter - (now + SIGNER_SKEW) >= validity;
  }

  lemma RoundBelow(lib: Signer, t: int, bound: int)
    requires lib.Sane() && bound % lib.grain == 0
    ensures lib.Round(t) <= bound <==> t < bound + lib.grain
  {
    var g := lib.grain;
    var q, b := t / g, bound / g;
    assert t == g * q + t % g && bound == g * b;
    if q <= b {
      assert g * q <= g * b by { MulOrder(g, q, b); }
    } else {
      assert g * q >= g * (b + 1) by { MulOrder(g, b + 1, q); }
      assert g * (b + 1) == g * b + g;
    }
  }

  lemma MulOrder(g: int, x: int, y: int)
    requires g > 0 && x <= y
    ensures g * x <= g * y
  {
  }

  /** The lifetime of what is issued, rounding and backdating included, is a duration. */
  predicate Representable(lib: Signer, validity: int) {
    0 < validity && validity + lib.backdate + lib.grain <= MAX_DURATION
  }

  /** At time now a fifth of the lifetime is left of what was issued at time at. */
  predicate Lasts(lib: Signer, validity: int, at: int, now: int)
    requires lib.Sane()
  {
    var expiry := lib.Round(at + validity);
    now <= expiry && now + (expiry - lib.Round(at - lib.backdate)) / 5 <= expiry
  }

  lemma QuotientOrder(g: int, q: int, r: int, p: int, s: int)
    requires 0 <= r < g && 0 <= s < g && g * q + r <= g * p + s
    ensures q <= p
  {
    assert g * (p + 1) == g * p + g;
    if q > p {
      MulOrder(g, p + 1, q);
      assert false;
    }
  }

  lemma RoundKeepsOrder(lib: Signer, t: int, u: int)
    requires lib.Sane() && t <= u
    ensures lib.Round(t) <= lib.Round(u) && t - lib.grain < lib.Round(t) <= t
  {
    var g := lib.grain;
    var q, r, p, s := t / g, t % g, u / g, u % g;
    assert t == g * q + r && u == g * p + s;
    QuotientOrder(g, q, r, p, s);
    MulOrder(g, q, p);
  }

  lemma IssuedLifetime(lib: Signer, ca: CA, cluster: string, publicKey: nat, validity: int, at: int)
    requires lib.Sane() && Representable(lib, validity)
    ensures var c := lib.Issue(ca, cluster, publicKey, validity, at).crt.certs[0];
            && 0 <= c.notAfter - c.notBefore <= MAX_DURATION
            && RenewAfter(c) == c.notAfter - (c.notAfter - c.notBefore) / 5
  {
    RoundKeepsOrder(lib, at - lib.backdate, at + validity);
    RoundKeepsOrder(lib, at + validity, at + validity);
    RenewAfterFifth(lib.Issue(ca, cluster, publicKey, validity, at).crt.certs[0]);
  }

  /** Exactly when a certificate issued at one time passes the check at another: as long as, with both ends rounded
      as they are encoded, a fifth of its lifetime is left. */
  lemma AcceptedIff(lib: Signer, ca: CA, bundle: seq<CA>, cluster: string, publicKey: nat, validity: int, at: int,
                    now: int)
    requires lib.Sane() && Representable(lib, validity) && ca in bundle
    ensures Valid(lib.Issue(ca, cluster, publicKey, validity, at), bundle, cluster, now) <==>
            Lasts(lib, validity, at, now)
  {
    IssuedLifetime(lib, ca, cluster, publicKey, validity, at);
    var c := lib.Issue(ca, cluster, publicKey, validity, at).crt.certs[0];
    assert SignedBy(c, ca) && ClientAuth == c.usages[0];
  }

  /** Enough validity for the rounding and the backdating not to matter. */
  predicate Ample(lib: Signer, validity: int) {
    lib.backdate + 6 * lib.grain <= 4 * validity && Representable(lib, validity)
  }

  /** What was just issued with ample validity is accepted by a check at that moment, and stays accepted until a fifth
      of the lifetime before its end: the next reconcile leaves it alone. */
  lemma AcceptedByNextCheck(lib: Signer, ca: CA, bundle: seq<CA>, cluster: string, publicKey: nat, validity: int,
                            at: int, now: int)
    requires lib.Sane() && Ample(lib, validity) && ca in bundle && at <= now
    ensures var s := lib.Issue(ca, cluster, publicKey, validity, at);
            && Valid(s, bundle, cluster, at)
            && (Valid(s, bundle, cluster, now) <==> now <= RenewAfter(s.crt.certs[0]))
  {
    IssuedLifetime(lib, ca, cluster, publicKey, validity, at);
    AmpleLasts(lib, validity, at);
    AcceptedIff(lib, ca, bundle, cluster, publicKey, validity, at, at);
    AcceptedIff(lib, ca, bundle, cluster, publicKey, validity, at, now);
  }

  lemma AmpleLasts(lib: Signer, validity: int, at: int)
    requires lib.Sane() && Ample(lib, validity)
    ensures Lasts(lib, validity, at, at)
  {
    RoundKeepsOrder(lib, at - lib.backdate, at + validity);
    RoundKeepsOrder(lib, at + validity, at + validity);
  }

  /** Next to a signer about to expire the controller issues, at a full second, a certificate its own check rejects
      at once, and so issues another in every reconcile. */
  lemma ShortCertificateIsRejected(lib: Signer, ca: CA, bundle: seq<CA>, cluster: string, publicKey: nat,
                                   validity: int, at: int)
    requires lib.Sane() && Representable(lib, validity) && ca in bundle
    requires 5 <= lib.backdate && lib.backdate % lib.grain == 0 && at % lib.grain == 0 && validity < lib.grain
    ensures !Valid(lib.Issue(ca, cluster, publicKey, validity, at), bundle, cluster, at)
  {
    var g := lib.grain;
    var k, j := at / g, lib.backdate / g;
    assert (at + validity) % g == validity by { ModAdd(g, k, validity); }
    assert at - lib.backdate == g * (k - j) by { assert at == g * k && lib.backdate == g * j; MulMinus(g, k, j); }
    assert (at - lib.backdate) % g == 0 by { ModAdd(g, k - j, 0); }
    AcceptedIff(lib, ca, bundle, cluster, publicKey, validity, at, at);
  }

  lemma MulMinus(g: int, x: int, y: int)
    ensures g * (x - y) == g * x - g * y
  {
  }

  lemma ModAdd(g: int, k: int, r: int)
    requires 0 <= r < g
    ensures (g * k + r) % g == r
  {
    var x := g * k + r;
    var q := x / g;
    assert x == g * q + x % g;
    assert g * (q + 1) == g * q + g && g * (k + 1) == g * k + g;
    if q < k {
      MulOrder(g, q + 1, k);
    } else if q > k {
      MulOrder(g, k + 1, q);
    }
  }

  // ---- What one reconcile does ----

  /** A certificate that passes the check is left as it is, and the reconcile succeeds without issuing. */
  lemma ValidIsLeftAlone(lib: Signer, cluster: string, s: State, i: Inputs)
    requires lib.Sane() && i.loads && s.secret.Some? && Valid(s.secret.value, i.bundle, cluster, i.now)
    ensures Ensure(lib, cluster, s, i).secret == s.secret && Succeeds(cluster, s, i)
  {
  }

  /** What takes the place of another certificate is made for the cluster by the signer, with a key of its own, and for no
      longer than thirty days or than the signer has left; and only one that does not pass the check is replaced. */
  lemma ReplacedByIssued(lib: Signer, cluster: string, s: State, i: Inputs)
    requires lib.Sane() && Ensure(lib, cluster, s, i).secret != s.secret
    ensures i.loads && !i.write.Rejected? && !(s.secret.Some? && Valid(s.secret.value, i.bundle, cluster, i.now))
    ensures var after := Ensure(lib, cluster, s, i).secret;
            && i.signer.Some? && after.Some? && Usable(after.value)
            && var c := after.value.crt.certs[0];
               && c.subject == cluster && SignedBy(c, i.signer.value) && c.usages == [ClientAuth]
               && after.value.key == KeyOf(i.publicKey)
               && c.notAfter <= i.issuedAt + 30 * 24 * 3600 * 1_000_000_000
               && c.notAfter <= i.issuedAt + (i.signer.value.notAfter - i.now)
  {
    var validity := TargetValidity(i.signer, i.now).value;
    RoundKeepsOrder(lib, i.issuedAt + validity, i.issuedAt + validity);
  }

  // ---- Freshness over unbounded runs ----

  /** The stored certificate was good for at least another fifth of its lifetime when last touched. */
  predicate Safe(s: State) {
    s.secret.Some? && s.secret.value.crt.Chain? && s.secret.value.crt.certs != [] ==>
      var c := s.secret.value.crt.certs[0];
      && 0 <= c.notAfter - c.notBefore <= MAX_DURATION
      && s.touched + (c.notAfter - c.notBefore) / 5 <= c.notAfter
  }

  /** What is needed of one call: if its signer lets it issue, then what it issues would pass the check at once. */
  predicate Reasonable(lib: Signer, i: Inputs)
    requires lib.Sane()
  {
    var validity := TargetValidity(i.signer, i.now);
    validity.Some? ==> Representable(lib, validity.value) && Lasts(lib, validity.value, i.issuedAt, i.issuedAt)
  }

  /** And nothing less will do: what is issued is safe exactly then. */
  lemma IssuedIsSafeIff(lib: Signer, ca: CA, cluster: string, publicKey: nat, validity: int, at: int)
    requires lib.Sane() && Representable(lib, validity)
    ensures Safe(State(Some(lib.Issue(ca, cluster, publicKey, validity, at)), at)) <==> Lasts(lib, validity, at, at)
  {
    IssuedLifetime(lib, ca, cluster, publicKey, validity, at);
  }

  lemma SafeStep(lib: Signer, cluster: string, s: State, i: Inputs)
    requires lib.Sane() && Safe(s) && Reasonable(lib, i)
    ensures Safe(Ensure(lib, cluster, s, i))
    ensures Succeeds(cluster, s, i) && i.now <= i.issuedAt ==> Ensure(lib, cluster, s, i).touched >= i.now
  {
    var s' := Ensure(lib, cluster, s, i);
    if i.loads {
      if s.secret.Some? && Valid(s.secret.value, i.bundle, cluster, i.now) {
        RenewAfterFifth(s.secret.value.crt.certs[0]);
      } else if TargetValidity(i.signer, i.now).Some? {
        IssuedLifetime(lib, i.signer.value, cluster, i.publicKey, TargetValidity(i.signer, i.now).value, i.issuedAt);
      }
    }
  }

  lemma {:induction false} SafeRun(lib: Signer, cluster: string, s: State, calls: seq<Inputs>)
    requires lib.Sane() && Safe(s) && forall i | i in calls :: Reasonable(lib, i)
    ensures Safe(Run(lib, cluster, s, calls))
    decreases |calls|
  {
    if calls != [] {
      SafeStep(lib, cluster, s, calls[0]);
      SafeRun(lib, cluster, Ensure(lib, cluster, s, calls[0]), calls[1..]);
    }
  }

  /** The cluster has a certificate that was good for another fifth of its lifetime at some time from then on. */
  predicate FreshSince(cluster: string, s: State, start: int) {
    && Safe(s) && s.touched >= start && s.secret.Some? && Usable(s.secret.value)
    && s.secret.value.crt.certs[0].subject == cluster
  }

  /** Later calls, whatever becomes of them, replace the certificate by a fresher one or leave it alone. */
  lemma {:induction false} StaysFresh(lib: Signer, cluster: string, s: State, later: seq<Inputs>, start: int)
    requires lib.Sane() && FreshSince(cluster, s, start)
    requires forall j | j in later :: Reasonable(lib, j) && start <= j.now <= j.issuedAt
    ensures FreshSince(cluster, Run(lib, cluster, s, later), start)
    decreases |later|
  {
    if later != [] {
      SafeStep(lib, cluster, s, later[0]);
      StaysFresh(lib, cluster, Ensure(lib, cluster, s, later[0]), later[1..], start);
    }
  }

  /** After any history of reconciles, failed or not, take a successful one that starts at time i.now, and then any
      others, failing ones and lost writes included.  At every time up to a fifth of its lifetime after i.now the
      certificate then stored is not expired.  So when successful reconciles are never further apart than that, the
      stored certificate is never expired. */
  lemma NeverExpired(lib: Signer, cluster: string, s: State, history: seq<Inputs>, i: Inputs, later: seq<Inputs>,
                     time: int)
    requires lib.Sane() && Safe(s) && (forall h | h in history :: Reasonable(lib, h)) && Reasonable(lib, i)
    requires Succeeds(cluster, Run(lib, cluster, s, history), i) && i.now <= i.issuedAt
    requires forall j | j in later :: Reasonable(lib, j) && i.now <= j.now <= j.issuedAt
    ensures var after := Run(lib, cluster, Ensure(lib, cluster, Run(lib, cluster, s, history), i), later);
            && after.secret.Some? && Usable(after.secret.value)
            && var c := after.secret.value.crt.certs[0];
               c.subject == cluster && (time - i.now <= (c.notAfter - c.notBefore) / 5 ==> time <= c.notAfter)
  {
    SafeRun(lib, cluster, s, history);
    SafeStep(lib, cluster, Run(lib, cluster, s, history), i);
    StaysFresh(lib, cluster, Ensure(lib, cluster, Run(lib, cluster, s, history), i), later, i.now);
  }

  // ---- The imperative code ----

  method HasExtKeyUsage(c: Cert, usage: Usage) returns (r: bool)
    ensures r <==> usage in c.usages
  {
    for i := 0 to |c.usages|
      invariant usage !in c.usages[..i]
    {
      if c.usages[i] == usage {
        return true;
      }
    }
    return false;
  }

  method HasValidClusterClientCertificate(s: Secret, bundle: seq<CA>, cluster: string, now: int) returns (r: bool)
    ensures r <==> Valid(s, bundle, cluster, now)
  {
    if s.crt.NoCert? || s.key.NoKey? {
      return false;
    }
    if s.crt.BadCert? || s.key.BadKey? || s.crt.certs == [] || s.crt.certs[0].publicKey != s.key.publicKey {
      return false;
    }
    var c := s.crt.certs[0];
    if c.subject != cluster {
      return false;
    }
    if now > c.notAfter {
      return false;
    }
    if now > c.notAfter + Quot(Neg(Sub(c.notAfter, c.notBefore)), 5) {
      return false;
    }
    var clientAuth := HasExtKeyUsage(c, ClientAuth);
    if !clientAuth {
      return false;
    }
    for i := 0 to |bundle|
      invariant forall ca | ca in bundle[..i] :: !SignedBy(c, ca)
    {
      if c.issuer == bundle[i].name && c.signedWith == bundle[i].key {
        assert SignedBy(c, bundle[i]);
        return true;
      }
    }
    return false;
  }

  class ClusterCertificate {
    var secret: Option<Secret>
    ghost var touched: int

    method EnsureClusterClientCertificate(lib: Signer, cluster: string, i: Inputs) returns (failed: bool)
      requires lib.Sane()
      modifies this
      ensures State(secret, touched) == Ensure(lib, cluster, State(old(secret), old(touched)), i)
      ensures failed <==> !Succeeds(cluster, State(old(secret), old(touched)), i)
    {
      if !i.loads {
        return true;
      }
      if secret.Some? {
        var valid := HasValidClusterClientCertificate(secret.value, i.bundle, cluster, i.now);
        if valid {
          touched := i.now;
          return false;
        }
      }
      var validity := TargetValidity(i.signer, i.now);
      if validity.None? {
        return true;
      }
      var issued := lib.Issue(i.signer.value, cluster, i.publicKey, validity.value, i.issuedAt);
      if i.write != Rejected {
        secret := Some(issued);
        touched := i.issuedAt;
      }
      return i.write != Accepted;
    }
  }
}
