/**
 * When the handlers leave a Secret alone, and that a second pass over what a complete pass left
 * changes nothing while no certificate comes near its expiry.
 */
module CertificateStability {
  import opened Common
  import opened Certificates
  import opened CertificateSafety

  // ---------- kept exactly ----------

  /**
   * A certificate is kept exactly when no rotation is asked for, its key is its own, the CA signed it,
   * neither is expired, its expiry is beyond the threshold and it covers the wanted names.
   */
  lemma LeafKeptExactly(s: Secret, ca: Pair, wanted: set<string>, sans: set<string>, e: Env)
    requires s.pair.key != Some(e.key)
    ensures MutateLeaf(Some(s), ca, wanted, sans, e) == Some(s) <==>
      && !s.rotate && s.pair.cert.Some? && ca.cert.Some?
      && s.pair.key == Some(s.pair.cert.value.key)
      && s.pair.cert.value.signer == ca.cert.value.key
      && e.now < s.pair.cert.value.expiry && e.now < ca.cert.value.expiry
      && e.now + e.threshold < s.pair.cert.value.expiry
      && wanted <= s.pair.cert.value.names
  {}

  /** The Konnectivity certificate must, besides, be the recorded one. */
  lemma KonnCertKeptExactly(s: Secret, recorded: Option<Pair>, ca: Pair, e: Env)
    requires s.pair.key != Some(e.key)
    ensures MutateKonnCert(Some(s), recorded, ca, e) == Some(s) <==>
      && recorded == Some(s.pair)
      && !s.rotate && s.pair.cert.Some? && ca.cert.Some?
      && s.pair.key == Some(s.pair.cert.value.key)
      && s.pair.cert.value.signer == ca.cert.value.key
      && e.now < s.pair.cert.value.expiry && e.now < ca.cert.value.expiry
      && e.now + e.threshold < s.pair.cert.value.expiry
  {}

  /**
   * A kubeconfig is kept exactly when no rotation is asked for, it embeds the CA's certificate, its
   * client certificate has its key and is beyond the threshold, and the recorded checksum is that of
   * the CA, the configuration and all files of the Secret.
   */
  lemma KubeconfigKeptExactly(s: KubeSecret, sum: Option<Sum>, ca: Pair, file: string, e: Env)
    requires file in s.files && s.files[file].key != e.key && Local(file) != Some(file)
    ensures
      var m, k := MutateKubeconfig(Some(s), sum, ca, file, e), s.files[file];
      (m.Some? && m.value.0.files[file] == k <==>
        && !s.rotate && ca.cert == Some(k.ca)
        && k.client.key == k.key && e.now + e.threshold < k.client.expiry
        && sum == Some(Sum(ca, e.before, s.files)))
  {}

  /** What is kept is kept as a whole, and so is the record; what is rendered gets a new key and leaves the other files alone. */
  lemma KubeconfigKeptWhole(s: KubeSecret, sum: Option<Sum>, ca: Pair, file: string, e: Env, other: string)
    requires Sound(ca) && file in s.files && s.files[file].key != e.key && Local(file) != Some(file)
    requires other in s.files && other != file && Some(other) != Local(file)
    ensures
      var m := MutateKubeconfig(Some(s), sum, ca, file, e);
      && m.Some? && m.value.0.files[other] == s.files[other]
      && (m.value.0.files[file] == s.files[file] ==> m.value == (s, sum.value))
      && (m.value.0.files[file] != s.files[file] ==>
            m.value.0.files[file] == KubeConfig(ca.cert.value, Cert(e.key, ca.key.value, e.expiry, {}), e.key))
  {}

  /** With the add-on off the Konnectivity Secrets go exactly while it is still recorded as enabled; their records go in any case. */
  lemma KonnectivityGoes(st: Store, r: Record, e: Env)
    ensures
      var h := Handle(9, st, r, false, e);
      h.Some? && h.value.1 == r.(konnCert := None) && h.value.0 == if e.enabled then st.(konnCert := None) else st
    ensures
      var h := Handle(10, st, r, false, e);
      h.Some? && h.value.1 == r.(konn := None) && h.value.0 == if e.enabled then st.(konn := None) else st
  {}

  // ---------- a whole pass ----------

  /** The handlers from `i` on, one environment each. */
  function Pass(i: nat, st: Store, r: Record, konnectivity: bool, es: seq<Env>): Option<(Store, Record)>
    requires i <= HANDLERS && |es| == HANDLERS
    decreases HANDLERS - i
  {
    if i == HANDLERS then Some((st, r))
    else
      match Handle(i, st, r, konnectivity, es[i])
      case None => None
      case Some((st', r')) => Pass(i + 1, st', r', konnectivity, es)
  }

  predicate Whole(s: Option<Secret>, ca: Pair) {
    Issued(s, ca) && !s.value.rotate
  }

  predicate WholeFile(s: Option<KubeSecret>, sum: Option<Sum>, file: string, ca: Pair, config: string) {
    && s.Some? && !s.value.rotate && file in s.value.files
    && ca.cert == Some(s.value.files[file].ca) && s.value.files[file].client.key == s.value.files[file].key
    && sum == Some(Sum(ca, config, s.value.files))
  }

  /** What the first `k` handlers of a pass leave, with the checksum of the configuration. */
  predicate Fixed(k: nat, st: Store, r: Record, konnectivity: bool, config: string) {
    var ca := PairOf(st.ca);
    var front := PairOf(st.frontCA);
    && (k > 0 ==> st.ca.Some? && !st.ca.value.rotate && Sound(ca))
    && (k > 1 ==> st.frontCA.Some? && !st.frontCA.value.rotate && Sound(front))
    && (k > 2 ==> Whole(st.apiServer, ca))
    && (k > 3 ==> Whole(st.kubelet, ca))
    && (k > 4 ==> Whole(st.frontClient, front))
    && (k > 5 ==> WholeFile(st.admin, r.admin, "admin.conf", ca, config))
    && (k > 6 ==> WholeFile(st.admin, r.admin, "super-admin.conf", ca, config))
    && (k > 7 ==> WholeFile(st.manager, r.manager, "controller-manager.conf", ca, config))
    && (k > 8 ==> WholeFile(st.scheduler, r.scheduler, "scheduler.conf", ca, config))
    && (k > 9 && konnectivity ==> Whole(st.konnCert, ca) && r.konnCert == Some(st.konnCert.value.pair))
    && (k > 10 && konnectivity ==>
          st.konn.Some? && !st.konn.value.rotate && r.konn == Some(st.konn.value.mark) && ca.cert == Some(st.konn.value.config.ca))
    && (k > 9 && !konnectivity ==> r.konnCert.None?)
    && (k > 10 && !konnectivity ==> r.konn.None?)
  }

  lemma FixCertificates(i: nat, st: Store, r: Record, konnectivity: bool, e: Env, config: string)
    requires i < 5 && Fixed(i, st, r, konnectivity, config)
    ensures var h := Handle(i, st, r, konnectivity, e); h.Some? && Fixed(i + 1, h.value.0, h.value.1, konnectivity, config)
  {}

  lemma FixFile(s: Option<KubeSecret>, sum: Option<Sum>, ca: Pair, file: string, e: Env)
    requires Sound(ca) && e.before == e.after && Local(file) != Some(file)
    ensures
      var m := MutateKubeconfig(s, sum, ca, file, e);
      m.Some? && WholeFile(Some(m.value.0), Some(m.value.1), file, ca, e.before)
  {}

  /** The second administrators' handler leaves the first one's file as fixed as it was. */
  lemma FixSuperAdmin(s: Option<KubeSecret>, sum: Option<Sum>, ca: Pair, e: Env)
    requires Sound(ca) && e.before == e.after && WholeFile(s, sum, "admin.conf", ca, e.before)
    ensures
      var m := MutateKubeconfig(s, sum, ca, "super-admin.conf", e);
      && m.Some? && WholeFile(Some(m.value.0), Some(m.value.1), "admin.conf", ca, e.before)
      && WholeFile(Some(m.value.0), Some(m.value.1), "super-admin.conf", ca, e.before)
  {
    FileNames();
  }

  lemma FixKubeconfigs(i: nat, st: Store, r: Record, konnectivity: bool, e: Env)
    requires 5 <= i < 9 && e.before == e.after && Fixed(i, st, r, konnectivity, e.before)
    ensures var h := Handle(i, st, r, konnectivity, e); h.Some? && Fixed(i + 1, h.value.0, h.value.1, konnectivity, e.before)
  {
    var ca := PairOf(st.ca);
    FileNames();
    if i == 5 { FixFile(st.admin, r.admin, ca, "admin.conf", e); }
    else if i == 6 { FixSuperAdmin(st.admin, r.admin, ca, e); }
    else if i == 7 { FixFile(st.manager, r.manager, ca, "controller-manager.conf", e); }
    else { FixFile(st.scheduler, r.scheduler, ca, "scheduler.conf", e); }
  }

  lemma FixKonnectivity(i: nat, st: Store, r: Record, konnectivity: bool, e: Env, config: string)
    requires 9 <= i < 11 && Fixed(i, st, r, konnectivity, config)
    ensures var h := Handle(i, st, r, konnectivity, e); h.Some? && Fixed(i + 1, h.value.0, h.value.1, konnectivity, config)
  {}

  /** The checksum of the kubeadm configuration is the same throughout, and rendering does not change it. */
  predicate Steady(es: seq<Env>, config: string) {
    |es| == HANDLERS && forall i :: 0 <= i < |es| ==> es[i].before == es[i].after == config
  }

  /** From any state of the Secrets a pass goes through and leaves everything fixed. */
  lemma {:induction false} PassFixes(i: nat, st: Store, r: Record, konnectivity: bool, es: seq<Env>, config: string)
    requires i <= HANDLERS && Steady(es, config) && Fixed(i, st, r, konnectivity, config)
    ensures
      var p := Pass(i, st, r, konnectivity, es);
      p.Some? && Fixed(HANDLERS, p.value.0, p.value.1, konnectivity, config)
    decreases HANDLERS - i
  {
    if i < HANDLERS {
      if i < 5 { FixCertificates(i, st, r, konnectivity, es[i], config); }
      else if i < 9 { FixKubeconfigs(i, st, r, konnectivity, es[i]); }
      else { FixKonnectivity(i, st, r, konnectivity, es[i], config); }
      var h := Handle(i, st, r, konnectivity, es[i]).value;
      PassFixes(i + 1, h.0, h.1, konnectivity, es, config);
    }
  }

  // ---------- the second pass ----------

  predicate Young(c: Cert, e: Env) { e.now < c.expiry && e.now + e.threshold < c.expiry }

  predicate YoungSecret(s: Option<Secret>, e: Env) { s.Some? && s.value.pair.cert.Some? && Young(s.value.pair.cert.value, e) }

  predicate YoungFile(s: Option<KubeSecret>, file: string, e: Env) { s.Some? && file in s.value.files && Young(s.value.files[file].client, e) }

  /** No certificate is near its expiry, and the wanted names are covered. */
  predicate Calm(st: Store, konnectivity: bool, e: Env) {
    && YoungSecret(st.ca, e) && YoungSecret(st.frontCA, e) && YoungSecret(st.apiServer, e) && YoungSecret(st.kubelet, e)
    && YoungSecret(st.frontClient, e) && e.wanted <= st.apiServer.value.pair.cert.value.names
    && YoungFile(st.admin, "admin.conf", e) && YoungFile(st.admin, "super-admin.conf", e)
    && YoungFile(st.manager, "controller-manager.conf", e) && YoungFile(st.scheduler, "scheduler.conf", e)
    && (konnectivity ==> YoungSecret(st.konnCert, e))
    && (!konnectivity && e.enabled ==> st.konnCert.None? && st.konn.None?)
  }

  lemma CertificateHandlersRest(i: nat, st: Store, r: Record, konnectivity: bool, e: Env, config: string)
    requires i < 5 && Fixed(HANDLERS, st, r, konnectivity, config) && Calm(st, konnectivity, e)
    ensures Handle(i, st, r, konnectivity, e) == Some((st, r))
  {}

  lemma KubeconfigHandlersRest(i: nat, st: Store, r: Record, konnectivity: bool, e: Env)
    requires 5 <= i < 9 && Fixed(HANDLERS, st, r, konnectivity, e.before) && Calm(st, konnectivity, e)
    ensures Handle(i, st, r, konnectivity, e) == Some((st, r))
  {}

  lemma KonnectivityHandlersRest(i: nat, st: Store, r: Record, konnectivity: bool, e: Env, config: string)
    requires 9 <= i < 11 && Fixed(HANDLERS, st, r, konnectivity, config) && Calm(st, konnectivity, e)
    ensures Handle(i, st, r, konnectivity, e) == Some((st, r))
  {}

  lemma {:induction false} PassRests(i: nat, st: Store, r: Record, konnectivity: bool, es: seq<Env>, config: string)
    requires i <= HANDLERS && Steady(es, config) && Fixed(HANDLERS, st, r, konnectivity, config)
    requires forall j :: 0 <= j < |es| ==> Calm(st, konnectivity, es[j])
    ensures Pass(i, st, r, konnectivity, es) == Some((st, r))
    decreases HANDLERS - i
  {
    if i < HANDLERS {
      if i < 5 { CertificateHandlersRest(i, st, r, konnectivity, es[i], config); }
      else if i < 9 { KubeconfigHandlersRest(i, st, r, konnectivity, es[i]); }
      else { KonnectivityHandlersRest(i, st, r, konnectivity, es[i], config); }
      PassRests(i + 1, st, r, konnectivity, es, config);
    }
  }

  /**
   * From any state of the Secrets, a second pass over what a complete pass left, with the same kubeadm
   * configuration and no certificate near its expiry, leaves every Secret and every record as it was.
   */
  lemma SecondPassChangesNothing(st: Store, r: Record, konnectivity: bool, es: seq<Env>, es': seq<Env>, config: string)
    requires Steady(es, config) && Steady(es', config)
    requires
      var p := Pass(0, st, r, konnectivity, es);
      p.Some? ==> forall j :: 0 <= j < |es'| ==> Calm(p.value.0, konnectivity, es'[j])
    ensures
      var p := Pass(0, st, r, konnectivity, es);
      p.Some? && Pass(0, p.value.0, p.value.1, konnectivity, es') == p
  {
    PassFixes(0, st, r, konnectivity, es, config);
    var p := Pass(0, st, r, konnectivity, es).value;
    PassRests(0, p.0, p.1, konnectivity, es', config);
  }
}
