/**
 * Every pass that reaches its end leaves all certificates and kubeconfigs issued by the certificate
 * authorities then stored, whatever was edited, rotated or cut short before.
 */
module CertificateSafety {
  import opened Common
  import opened Certificates

  // ---------- what it means to be issued ----------

  /** The pair of a certificate authority that can sign what its own certificate verifies. */
  predicate Sound(ca: Pair) {
    ca.cert.Some? && ca.key.Some? && ca.cert.value.key == ca.key.value
  }

  /** The Secret holds a certificate with its key, signed by the authority. */
  predicate Issued(s: Option<Secret>, ca: Pair) {
    && s.Some? && s.value.pair.cert.Some? && ca.cert.Some?
    && s.value.pair.key == Some(s.value.pair.cert.value.key)
    && s.value.pair.cert.value.signer == ca.cert.value.key
  }

  /** The kubeconfig trusts the authority's certificate and authenticates with one it signed. */
  predicate IssuedConfig(k: KubeConfig, ca: Pair) {
    ca.cert == Some(k.ca) && k.client.signer == k.ca.key
  }

  /** `file` is present and issued, and so is its in-cluster variant when present. */
  predicate IssuedFile(s: Option<KubeSecret>, file: string, ca: Pair) {
    && s.Some? && file in s.value.files && IssuedConfig(s.value.files[file], ca)
    && (Local(file).Some? && Local(file).value in s.value.files ==> IssuedConfig(s.value.files[Local(file).value], ca))
  }

  // ---------- the invariant ----------

  /** A recorded checksum was computed over a file, and its in-cluster variant, issued by the authority it covers. */
  predicate SumOk(s: Option<Sum>, file: string) {
    s.Some? && Sound(s.value.ca) ==> IssuedFile(Some(KubeSecret(s.value.files, false)), file, s.value.ca)
  }

  /** A recorded checksum of the administrators' files covers the in-cluster variant. */
  predicate VariantOk(s: Option<Sum>) {
    s.Some? && Sound(s.value.ca) ==> "admin.svc" in s.value.files
  }

  /** What the first `k` handlers of a pass leave behind. */
  predicate Done(k: nat, st: Store, konnectivity: bool) {
    var ca := PairOf(st.ca);
    var front := PairOf(st.frontCA);
    && (k > 0 ==> Sound(ca))
    && (k > 1 ==> Sound(front))
    && (k > 2 ==> Issued(st.apiServer, ca))
    && (k > 3 ==> Issued(st.kubelet, ca))
    && (k > 4 ==> Issued(st.frontClient, front))
    && (k > 5 ==> IssuedFile(st.admin, "admin.conf", ca) && "admin.svc" in st.admin.value.files)
    && (k > 6 ==> IssuedFile(st.admin, "super-admin.conf", ca))
    && (k > 7 ==> IssuedFile(st.manager, "controller-manager.conf", ca))
    && (k > 8 ==> IssuedFile(st.scheduler, "scheduler.conf", ca))
    && (k > 9 && konnectivity ==> Issued(st.konnCert, ca))
    && (k > 10 && konnectivity ==> st.konn.Some? && IssuedConfig(st.konn.value.config, ca))
  }

  predicate Inv(w: World) {
    && GenuineSuperAdmin(w.store.admin)
    && GenuineKonn(w.store.konn, w.record.konn)
    && SumOk(w.record.admin, "admin.conf") && VariantOk(w.record.admin)
    && SumOk(w.record.manager, "controller-manager.conf")
    && SumOk(w.record.scheduler, "scheduler.conf")
    && (w.next.Some? ==> Done(w.next.value, w.store, w.konnectivity))
  }

  // ---------- one handler at a time ----------

  /** The certificate outlives the threshold, or was made just now. */
  predicate Fresh(c: Cert, e: Env) {
    c.expiry > e.now + e.threshold || (c.expiry == e.expiry && (c.key == e.key || c.key == e.key'))
  }

  /** A CA ends usable; it is replaced exactly when asked for, missing, broken or about to expire. */
  lemma CAIsSound(s: Option<Secret>, e: Env)
    ensures Sound(MutateCA(s, e).pair) && Fresh(MutateCA(s, e).pair.cert.value, e) && !MutateCA(s, e).rotate
    ensures s.Some? && s.value.pair.key != Some(e.key) ==>
      (MutateCA(s, e) == s.value <==> !s.value.rotate && Sound(s.value.pair) && s.value.pair.cert.value.expiry > e.now + e.threshold)
    ensures s.Some? && s.value.rotate ==> MutateCA(s, e).pair.key == Some(e.key)
  {}

  lemma LeafIsIssued(s: Option<Secret>, ca: Pair, wanted: set<string>, sans: set<string>, e: Env)
    requires Sound(ca)
    ensures MutateLeaf(s, ca, wanted, sans, e).Some?
    ensures Issued(MutateLeaf(s, ca, wanted, sans, e), ca)
    ensures Fresh(MutateLeaf(s, ca, wanted, sans, e).value.pair.cert.value, e) && !MutateLeaf(s, ca, wanted, sans, e).value.rotate
    ensures s.Some? && s.value.rotate ==> MutateLeaf(s, ca, wanted, sans, e).value.pair.key == Some(e.key)
    ensures var c := MutateLeaf(s, ca, wanted, sans, e).value.pair.cert.value; wanted <= c.names || c.names == sans
  {}

  lemma FileNames()
    ensures |"admin.conf"| == 10 && |"admin.svc"| == 9 && |"super-admin.conf"| == 16 && |"super-admin.svc"| == 15
  {}

  /** Whatever was done to them, `admin.conf` and its variant end issued; the other files are not touched. */
  lemma AdminFileIsIssued(s: Option<KubeSecret>, sum: Option<Sum>, ca: Pair, e: Env)
    requires Sound(ca) && SumOk(sum, "admin.conf") && VariantOk(sum) && GenuineSuperAdmin(s)
    ensures
      var m := MutateKubeconfig(s, sum, ca, "admin.conf", e);
      && m.Some? && "admin.svc" in m.value.0.files && VariantOk(Some(m.value.1))
      && IssuedFile(Some(m.value.0), "admin.conf", ca) && SumOk(Some(m.value.1), "admin.conf")
      && GenuineSuperAdmin(Some(m.value.0))
      && Fresh(m.value.0.files["admin.conf"].client, e) && !m.value.0.rotate
      && (s.Some? && s.value.rotate ==> m.value.0.files["admin.conf"].key == e.key)
  {
    FileNames();
  }

  /** A genuine `super-admin.conf` ends issued, and `admin.conf` stays so. */
  lemma SuperAdminFileIsIssued(s: Option<KubeSecret>, sum: Option<Sum>, ca: Pair, e: Env)
    requires Sound(ca) && SumOk(sum, "admin.conf") && VariantOk(sum) && GenuineSuperAdmin(s)
    requires IssuedFile(s, "admin.conf", ca) && "admin.svc" in s.value.files
    ensures
      var m := MutateKubeconfig(s, sum, ca, "super-admin.conf", e);
      && m.Some? && "admin.svc" in m.value.0.files && VariantOk(Some(m.value.1))
      && IssuedFile(Some(m.value.0), "super-admin.conf", ca) && IssuedFile(Some(m.value.0), "admin.conf", ca)
      && SumOk(Some(m.value.1), "admin.conf") && GenuineSuperAdmin(Some(m.value.0))
      && Fresh(m.value.0.files["super-admin.conf"].client, e) && !m.value.0.rotate
      && (s.value.rotate ==> m.value.0.files["super-admin.conf"].key == e.key)
  {
    FileNames();
  }

  /** Tampering with these two Secrets is caught by the checksum over their data. */
  lemma RecordedFileIsIssued(s: Option<KubeSecret>, sum: Option<Sum>, ca: Pair, file: string, e: Env)
    requires Sound(ca) && SumOk(sum, file) && Local(file).None?
    ensures
      var m := MutateKubeconfig(s, sum, ca, file, e);
      && m.Some? && IssuedFile(Some(m.value.0), file, ca) && SumOk(Some(m.value.1), file)
      && Fresh(m.value.0.files[file].client, e) && !m.value.0.rotate && (s.Some? && s.value.rotate ==> m.value.0.files[file].key == e.key)
  {}

  lemma CertificateHandlers(w: World, e: Env)
    requires Inv(w) && w.next.Some? && w.next.value < 5
    ensures
      var h := Handle(w.next.value, w.store, w.record, w.konnectivity, e);
      h.Some? && Inv(World(h.value.0, h.value.1, w.konnectivity, Some(w.next.value + 1)))
  {
    var i, st := w.next.value, w.store;
    if i == 0 { CAIsSound(st.ca, e); }
    else if i == 1 { CAIsSound(st.frontCA, e); }
    else if i == 2 { LeafIsIssued(st.apiServer, PairOf(st.ca), e.wanted, e.sans, e); }
    else if i == 3 { LeafIsIssued(st.kubelet, PairOf(st.ca), {}, {}, e); }
    else { LeafIsIssued(st.frontClient, PairOf(st.frontCA), {}, {}, e); }
  }

  lemma KubeconfigHandlers(w: World, e: Env)
    requires Inv(w) && w.next.Some? && 5 <= w.next.value < 9
    ensures
      var h := Handle(w.next.value, w.store, w.record, w.konnectivity, e);
      h.Some? && Inv(World(h.value.0, h.value.1, w.konnectivity, Some(w.next.value + 1)))
  {
    var i, st, r := w.next.value, w.store, w.record;
    var ca := PairOf(st.ca);
    if i == 5 { AdminFileIsIssued(st.admin, r.admin, ca, e); }
    else if i == 6 { SuperAdminFileIsIssued(st.admin, r.admin, ca, e); }
    else if i == 7 { RecordedFileIsIssued(st.manager, r.manager, ca, "controller-manager.conf", e); }
    else { RecordedFileIsIssued(st.scheduler, r.scheduler, ca, "scheduler.conf", e); }
  }

  lemma KonnectivityHandlers(w: World, e: Env)
    requires Inv(w) && w.next.Some? && 9 <= w.next.value < 11
    ensures
      var h := Handle(w.next.value, w.store, w.record, w.konnectivity, e);
      h.Some? && Inv(World(h.value.0, h.value.1, w.konnectivity, Some(w.next.value + 1)))
  {
    var st, r := w.store, w.record;
    if w.next.value == 9 && w.konnectivity {
      LeafIsIssued(if st.konnCert.Some? && r.konnCert == Some(st.konnCert.value.pair) then st.konnCert else None, PairOf(st.ca), {}, {}, e);
    }
  }

  /** No handler fails once the authority is sound, and each keeps the invariant. */
  lemma HandlerKeepsInv(w: World, e: Env)
    requires Inv(w) && w.next.Some? && w.next.value < HANDLERS
    ensures
      var h := Handle(w.next.value, w.store, w.record, w.konnectivity, e);
      h.Some? && Inv(World(h.value.0, h.value.1, w.konnectivity, Some(w.next.value + 1)))
  {
    if w.next.value < 5 { CertificateHandlers(w, e); }
    else if w.next.value < 9 { KubeconfigHandlers(w, e); }
    else { KonnectivityHandlers(w, e); }
  }

  lemma RequestKeepsInv(w: World, st: Store)
    requires Inv(w) && OnlyRequests(w.store, st)
    ensures Inv(w.(store := st))
  {
    assert PairOf(st.ca) == PairOf(w.store.ca) && PairOf(st.frontCA) == PairOf(w.store.frontCA);
  }

  lemma CutKeepsInv(w: World, e: Env)
    requires Inv(w) && w.next.Some? && w.next.value < HANDLERS
    ensures
      var h := Handle(w.next.value, w.store, w.record, w.konnectivity, e);
      h.Some? && Inv(w.(store := h.value.0, next := None))
  {
    HandlerKeepsInv(w, e);
  }

  lemma StepKeepsInv(w: World, a: Action, w': World)
    requires Inv(w) && Step(w, a) == Some(w')
    ensures Inv(w')
  {
    match a
    case Do(e) => HandlerKeepsInv(w, e);
    case Cut(e) => CutKeepsInv(w, e);
    case Request(st) => RequestKeepsInv(w, st);
    case _ =>
  }

  lemma {:induction false} InvHolds(trace: seq<World>, actions: seq<Action>, n: nat)
    requires Run(trace, actions) && n < |trace|
    ensures Inv(trace[n])
  {
    if n > 0 {
      InvHolds(trace, actions, n - 1);
      assert Step(trace[n - 1], actions[n - 1]) == Some(trace[n]);
      StepKeepsInv(trace[n - 1], actions[n - 1], trace[n]);
    }
  }

  // ---------- main results ----------

  /**
   * In every run, a pass that has gone through all its handlers leaves every certificate and every
   * kubeconfig issued by the authorities then stored.
   */
  lemma CompletePassIssuesEverything(trace: seq<World>, actions: seq<Action>, n: nat)
    requires Run(trace, actions) && n < |trace| && trace[n].next == Some(HANDLERS)
    ensures
      var st := trace[n].store;
      var ca, front := PairOf(st.ca), PairOf(st.frontCA);
      && Sound(ca) && Sound(front)
      && Issued(st.apiServer, ca) && Issued(st.kubelet, ca) && Issued(st.frontClient, front)
      && IssuedFile(st.admin, "admin.conf", ca) && "admin.svc" in st.admin.value.files
      && IssuedFile(st.admin, "super-admin.conf", ca)
      && IssuedFile(st.manager, "controller-manager.conf", ca) && IssuedFile(st.scheduler, "scheduler.conf", ca)
      && (trace[n].konnectivity ==>
            Issued(st.konnCert, ca) && st.konn.Some? && IssuedConfig(st.konn.value.config, ca))
  {
    InvHolds(trace, actions, n);
  }

  /** The certificate of the API server answers for all wanted names after its handler, when kubeadm puts them in. */
  lemma ApiServerAnswersForNames(trace: seq<World>, actions: seq<Action>, n: nat)
    requires Run(trace, actions) && n < |actions| && actions[n].Do? && trace[n].next == Some(2)
    requires actions[n].e.wanted <= actions[n].e.sans
    ensures Issued(trace[n + 1].store.apiServer, PairOf(trace[n + 1].store.ca))
    ensures actions[n].e.wanted <= trace[n + 1].store.apiServer.value.pair.cert.value.names
  {
    InvHolds(trace, actions, n + 1);
    assert Step(trace[n], actions[n]) == Some(trace[n + 1]);
  }

  /** A pass that is cut short has written the same objects as one that goes on, and recorded nothing. */
  lemma CutWritesTheObject(w: World, e: Env)
    ensures
      var on, off := Step(w, Do(e)), Step(w, Cut(e));
      && (on.Some? <==> off.Some?)
      && (on.Some? ==> off.value.store == on.value.store && off.value.record == w.record && off.value.next.None?)
  {}

  /**
   * For the same reason the in-cluster variant of the super administrators' file may be missing after a
   * pass: once deleted, it comes back exactly when the file itself has to be rendered.
   */
  lemma MissingVariantComesBackExactly(s: KubeSecret, sum: Option<Sum>, ca: Pair, e: Env, e': Env)
    requires Sound(ca) && ShouldRender(Some(s), sum, ca, "admin.conf", e) && "super-admin.svc" !in s.files
    ensures
      var m := MutateKubeconfig(Some(s), sum, ca, "admin.conf", e).value;
      var m' := MutateKubeconfig(Some(m.0), Some(m.1), ca, "super-admin.conf", e').value;
      var keeps :=
        && "super-admin.conf" in s.files && ca.cert == Some(s.files["super-admin.conf"].ca)
        && s.files["super-admin.conf"].client.expiry > e'.now + e'.threshold
        && s.files["super-admin.conf"].client.key == s.files["super-admin.conf"].key && e'.before == e.after;
      "super-admin.svc" in m'.0.files <==> !keeps
  {
    FileNames();
  }

  /**
   * Why forged files of super administrators are not tolerated.  Both administrators' files live in one
   * Secret under one recorded checksum: when the first handler has to render `admin.conf`, it
   * records the checksum over the other file as it finds it, and the second handler then keeps that
   * file, whoever signed its client certificate, exactly under the condition below.
   */
  lemma AdulteratedSuperAdminIsKept(s: KubeSecret, sum: Option<Sum>, ca: Pair, e: Env, e': Env)
    requires Sound(ca) && ShouldRender(Some(s), sum, ca, "admin.conf", e)
    requires "super-admin.conf" in s.files && e'.key != s.files["super-admin.conf"].key
    ensures
      var k := s.files["super-admin.conf"];
      var m := MutateKubeconfig(Some(s), sum, ca, "admin.conf", e).value;
      var m' := MutateKubeconfig(Some(m.0), Some(m.1), ca, "super-admin.conf", e').value;
      m'.0.files["super-admin.conf"] == k <==> ca.cert == Some(k.ca) && ValidConfig(k, e') && e'.before == e.after
  {
    FileNames();
  }

  /**
   * Why the Konnectivity kubeconfig must be genuine under its recorded annotation: with a sound CA and
   * an issued certificate the handler leaves it issued exactly when it renders it or finds it genuine.
   */
  lemma KonnectivityConfigIssuedExactly(s: KonnSecret, recorded: Option<KubeConfig>, ca: Pair, cert: Option<Secret>)
    requires Sound(ca) && Issued(cert, ca)
    ensures
      var m := MutateKonn(Some(s), recorded, ca, cert);
      m.Some? && (IssuedConfig(m.value.config, ca) <==>
        !(recorded == Some(s.mark) && !s.rotate && ca.cert == Some(s.config.ca)) || Genuine(s.config))
  {}

  /** The kubeconfig authenticates with the certificate that is stored. */
  predicate Embeds(k: KubeConfig, cert: Option<Secret>) {
    cert.Some? && cert.value.pair == Pair(Some(k.client), Some(k.key))
  }

  /**
   * The handler looks neither at the stored certificate nor at an expiry: when the certificate was
   * signed again under the same CA, the kubeconfig keeps the former one.  The stored one is embedded
   * exactly when the file is rendered or had it already.
   */
  lemma KonnectivityCertificateEmbeddedExactly(s: KonnSecret, recorded: Option<KubeConfig>, ca: Pair, cert: Option<Secret>)
    requires Sound(ca) && Issued(cert, ca)
    ensures
      var m := MutateKonn(Some(s), recorded, ca, cert);
      m.Some? && (Embeds(m.value.config, cert) <==>
        !(recorded == Some(s.mark) && !s.rotate && ca.cert == Some(s.config.ca)) || Embeds(s.config, cert))
  {}
}
