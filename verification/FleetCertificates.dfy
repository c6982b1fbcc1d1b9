/** The checks and the signing that the fleet's programs are parameterised by, as module ClientCertificate has them. */
module FleetCertificates {
  import opened Kube
  import opened RegistrationUrl
  import opened FleetView
  import opened ClientCertificate
  import opened FleetStore
  import opened FleetRun
  import opened FleetLaws

  /** What the certificate check sees in a secret. */
  function Pems(s: FleetView.Secret): ClientCertificate.Secret {
    ClientCertificate.Secret(
      if "tls.crt" in s.data then (if s.data["tls.crt"].CrtPem? then s.data["tls.crt"].crt else BadCert) else NoCert,
      if "tls.key" in s.data then (if s.data["tls.key"].PrivatePem? then s.data["tls.key"].key else BadKey) else NoKey)
  }

  /** Signing and checking at one moment; keys tells which key is made for a cluster. */
  function WithCA(cfg: Config, lib: Signer, ca: CA, bundle: seq<CA>, keys: string -> nat, now: int): Config
    requires lib.Sane()
  {
    cfg.(valid := (s: FleetView.Secret, c: string) => Valid(Pems(s), bundle, c, now),
         issue := (c: string) =>
           match TargetValidity(Some(ca), now)
           case None => None
           case Some(validity) =>
             var s := lib.Issue(ca, c, keys(c), validity, now);
             Some((CrtPem(s.crt), PrivatePem(s.key))))
  }

  lemma IssuedPems(before: Option<FleetView.Secret>, s: ClientCertificate.Secret)
    ensures Pems(Issued(before, (CrtPem(s.crt), PrivatePem(s.key)))) == s
  {
  }

  /** With a CA that lasts long enough every cluster can be served: what is issued passes the very next check. */
  lemma AmpleIsServable(cfg: Config, lib: Signer, ca: CA, bundle: seq<CA>, keys: string -> nat, now: int, sh: Shared,
                        c: ByteString)
    requires lib.Sane() && ca in bundle
    requires TargetValidity(Some(ca), now).Some? && Ample(lib, TargetValidity(Some(ca), now).value)
    requires sh.ca.Some? && "tls.crt" in sh.ca.value.data
    requires cfg.proxy.Some? ==> IsAcceptedOrigin(cfg.proxy.value)
    ensures Servable(WithCA(cfg, lib, ca, bundle, keys, now), sh, c)
  {
    var here, validity := WithCA(cfg, lib, ca, bundle, keys, now), TargetValidity(Some(ca), now).value;
    var s := lib.Issue(ca, c, keys(c), validity, now);
    AcceptedByNextCheck(lib, ca, bundle, c, keys(c), validity, now, now);
    forall before
      ensures here.valid(Issued(before, here.issue(c).value), c)
    {
      IssuedPems(before, s);
    }
    forall t | here.valid(t, c)
      ensures "tls.crt" in t.data && "tls.key" in t.data
    {
      assert Usable(Pems(t));
    }
  }

  /** A certificate that passed the check passes it at any later time up to its renewal, and no longer. */
  lemma PassesUntilRenewal(s: ClientCertificate.Secret, bundle: seq<CA>, c: string, now: int, later: int)
    requires Valid(s, bundle, c, now) && now <= later
    ensures Valid(s, bundle, c, later) <==> later <= s.crt.certs[0].notAfter && later <= RenewAfter(s.crt.certs[0])
  {
  }

  /** The fixpoint in terms of time: two fault-free passes, the second one before any certificate stored by the first
      is due for renewal, leave what the first one alone leaves. */
  lemma PassBeforeRenewalIsIdle(fl: Fleet, cfg: Config, lib: Signer, ca: CA, bundle: seq<CA>, keys: string -> nat,
                                keys': string -> nat, now: int, later: int, run: Run, run': Run, st: Store)
    requires lib.Sane() && Lists(run) && NoFaults(run) && Lists(run') && NoFaults(run') && now <= later
    requires fl.cfg == WithCA(cfg, lib, ca, bundle, keys, now)
    requires ValidUser(fl.cfg.user) && AllServable(fl, SharedOf(st, fl.cfg, fl.image))
    requires forall c, s | c in fl.clusters && View(Pass(fl, run, st), fl.cfg, c).client == Some(s)
                           && Pems(s).crt.Chain? && Pems(s).crt.certs != [] ::
               later <= Pems(s).crt.certs[0].notAfter && later <= RenewAfter(Pems(s).crt.certs[0])
    ensures var fl' := fl.(cfg := WithCA(cfg, lib, ca, bundle, keys', later));
            Pass(fl', run', Pass(fl, run, st)) == Pass(fl, run, st)
  {
    var cfg' := WithCA(cfg, lib, ca, bundle, keys', later);
    var st' := Pass(fl, run, st);
    forall i | 0 <= i < |fl.clusters|
      ensures var client := View(st', fl.cfg, fl.clusters[i]).client;
              client.Some? && cfg'.valid(client.value, fl.clusters[i])
    {
      var c := fl.clusters[i];
      ClientIsValid(fl, run, st, c);
      PassesUntilRenewal(Pems(View(st', fl.cfg, c).client.value), bundle, c, now, later);
    }
    LaterPassIsIdle(fl, run, run', st, cfg'.valid, cfg'.issue);
  }
}
