/**
 * Certificates and kubeconfigs of a tenant hang off its certificate authorities.  A pass walks the
 * handlers in order; any of them may fail, the CA may be rotated in any pass, and people may edit
 * or delete Secrets between passes.  Keys are numbers; a certificate names the key that signed it.
 */
module Certificates {
  import opened Common

  datatype Cert = Cert(key: nat, signer: nat, expiry: int, names: set<string>)

  /** `None` is an absent or unparsable entry. */
  datatype Pair = Pair(cert: Option<Cert>, key: Option<nat>)

  /** A Secret with a certificate and its key; `rotate` is the rotation request annotation. */
  datatype Secret = Secret(pair: Pair, rotate: bool)

  datatype KubeConfig = KubeConfig(ca: Cert, client: Cert, key: nat)

  datatype KubeSecret = KubeSecret(files: map<string, KubeConfig>, rotate: bool)

  /** The recorded checksum of a kubeconfig Secret; the hash is injective, so it is its own preimage. */
  datatype Sum = Sum(ca: Pair, config: string, files: map<string, KubeConfig>)

  /** The Konnectivity kubeconfig; `mark` is the checksum annotation written with it. */
  datatype KonnSecret = KonnSecret(config: KubeConfig, mark: KubeConfig, rotate: bool)

  datatype Store = Store(
    ca: Option<Secret>,
    frontCA: Option<Secret>,
    apiServer: Option<Secret>,
    kubelet: Option<Secret>,
    frontClient: Option<Secret>,
    admin: Option<KubeSecret>,
    manager: Option<KubeSecret>,
    scheduler: Option<KubeSecret>,
    konnCert: Option<Secret>,
    konn: Option<KonnSecret>)

  /** The checksums in the tenant's status. */
  datatype Record = Record(
    admin: Option<Sum>,
    manager: Option<Sum>,
    scheduler: Option<Sum>,
    konnCert: Option<Pair>,
    konn: Option<KubeConfig>)

  /** What a handler meets: the clock, the threshold, fresh keys, and the kubeadm configuration. */
  datatype Env = Env(
    now: int,
    threshold: int,
    key: nat,
    key': nat,
    expiry: int,
    wanted: set<string>,      // names and addresses the API server must answer for
    sans: set<string>,        // names and addresses kubeadm puts into its certificate
    enabled: bool,            // the recorded Konnectivity flag, read when the add-on is off
    before: string,           // checksum of the kubeadm configuration, as read
    after: string)            // the same, after the kubeconfigs were rendered

  // ---------- checks ----------

  predicate ValidPair(p: Pair, e: Env) {
    p.cert.Some? && p.key.Some? && p.cert.value.expiry > e.now + e.threshold && p.cert.value.key == p.key.value
  }

  /** x509 verification with the CA as the only root. */
  predicate Verifies(p: Pair, ca: Pair, e: Env) {
    && p.cert.Some? && ca.cert.Some?
    && p.cert.value.signer == ca.cert.value.key
    && e.now < p.cert.value.expiry && e.now < ca.cert.value.expiry
  }

  predicate ValidConfig(k: KubeConfig, e: Env) {
    k.client.expiry > e.now + e.threshold && k.client.key == k.key
  }

  // ---------- mutations ----------

  /** A CA Secret is kept while its pair is valid and no rotation is asked for. */
  function MutateCA(s: Option<Secret>, e: Env): Secret {
    if s.Some? && !s.value.rotate && ValidPair(s.value.pair, e) then s.value
    else Secret(Pair(Some(Cert(e.key, e.key, e.expiry, {})), Some(e.key)), false)
  }

  /** A certificate is signed again unless it is valid, verifies, and covers the wanted names. */
  function MutateLeaf(s: Option<Secret>, ca: Pair, wanted: set<string>, sans: set<string>, e: Env): Option<Secret> {
    if s.Some? && !s.value.rotate && Verifies(s.value.pair, ca, e) && ValidPair(s.value.pair, e)
       && wanted <= s.value.pair.cert.value.names
    then s
    else if ca.cert.None? || ca.key.None? then None
    else Some(Secret(Pair(Some(Cert(e.key, ca.key.value, e.expiry, sans)), Some(e.key)), false))
  }

  /** The in-cluster variant rendered next to the administrators' files. */
  function Local(file: string): Option<string> {
    if file == "admin.conf" then Some("admin.svc")
    else if file == "super-admin.conf" then Some("super-admin.svc")
    else None
  }

  function Render(ca: Pair, key: nat, e: Env): KubeConfig
    requires ca.cert.Some? && ca.key.Some?
  {
    KubeConfig(ca.cert.value, Cert(key, ca.key.value, e.expiry, {}), key)
  }

  predicate ShouldRender(s: Option<KubeSecret>, sum: Option<Sum>, ca: Pair, file: string, e: Env) {
    || s.None?
    || s.value.rotate
    || file !in s.value.files
    || ca.cert != Some(s.value.files[file].ca)
    || !ValidConfig(s.value.files[file], e)
    || sum != Some(Sum(ca, e.before, s.value.files))
  }

  /** The Secret and its checksum after the handler of `file`. */
  function MutateKubeconfig(s: Option<KubeSecret>, sum: Option<Sum>, ca: Pair, file: string, e: Env): Option<(KubeSecret, Sum)> {
    if !ShouldRender(s, sum, ca, file, e) then Some((s.value, sum.value))
    else if ca.cert.None? || ca.key.None? then None
    else
      var prior := if s.Some? then s.value.files else map[];
      var files := prior[file := Render(ca, e.key, e)];
      var files' := if Local(file).Some? then files[Local(file).value := Render(ca, e.key', e)] else files;
      Some((KubeSecret(files', false), Sum(ca, e.after, files')))
  }

  /** The Konnectivity kubeconfig embeds the Konnectivity certificate. */
  function MutateKonn(s: Option<KonnSecret>, sum: Option<KubeConfig>, ca: Pair, cert: Option<Secret>): Option<KonnSecret> {
    if s.Some? && sum == Some(s.value.mark) && !s.value.rotate && ca.cert == Some(s.value.config.ca) then s
    else if ca.cert.None? || cert.None? || cert.value.pair.cert.None? || cert.value.pair.key.None? then None
    else
      var k := KubeConfig(ca.cert.value, cert.value.pair.cert.value, cert.value.pair.key.value);
      Some(KonnSecret(k, k, false))
  }

  /** The Konnectivity certificate is checked only when its recorded checksum matches its data. */
  function MutateKonnCert(s: Option<Secret>, sum: Option<Pair>, ca: Pair, e: Env): Option<Secret> {
    MutateLeaf(if s.Some? && sum == Some(s.value.pair) then s else None, ca, {}, {}, e)
  }

  // ---------- handlers, in pass order ----------

  datatype World = World(store: Store, record: Record, konnectivity: bool, next: Option<nat>)

  const HANDLERS: nat := 11

  function PairOf(s: Option<Secret>): Pair {
    if s.Some? then s.value.pair else Pair(None, None)
  }

  /** The stored objects and the record after handler `i`; `None` when it fails. */
  function Handle(i: nat, st: Store, r: Record, konnectivity: bool, e: Env): Option<(Store, Record)> {
    if i == 0 then Some((st.(ca := Some(MutateCA(st.ca, e))), r))
    else if i == 1 then Some((st.(frontCA := Some(MutateCA(st.frontCA, e))), r))
    else if i < 5 || (i == 9 && konnectivity) then HandleLeaf(i, st, r, e)
    else if i < 9 then HandleKubeconfig(i, st, r, e)
    else if i == 10 && konnectivity then
      var s := MutateKonn(st.konn, r.konn, PairOf(st.ca), st.konnCert);
      if s.None? then None else Some((st.(konn := s), r.(konn := Some(s.value.mark))))
    else Some(HandleDisabled(i, st, r, e))
  }

  /** Without the add-on the Konnectivity Secrets are deleted while still recorded as enabled. */
  function HandleDisabled(i: nat, st: Store, r: Record, e: Env): (Store, Record) {
    if i == 9 then (if e.enabled then st.(konnCert := None) else st, r.(konnCert := None))
    else (if e.enabled then st.(konn := None) else st, r.(konn := None))
  }

  function HandleLeaf(i: nat, st: Store, r: Record, e: Env): Option<(Store, Record)> {
    if i == 2 then
      var s := MutateLeaf(st.apiServer, PairOf(st.ca), e.wanted, e.sans, e);
      if s.None? then None else Some((st.(apiServer := s), r))
    else if i == 3 then
      var s := MutateLeaf(st.kubelet, PairOf(st.ca), {}, {}, e);
      if s.None? then None else Some((st.(kubelet := s), r))
    else if i == 4 then
      var s := MutateLeaf(st.frontClient, PairOf(st.frontCA), {}, {}, e);
      if s.None? then None else Some((st.(frontClient := s), r))
    else
      var s := MutateKonnCert(st.konnCert, r.konnCert, PairOf(st.ca), e);
      if s.None? then None else Some((st.(konnCert := s), r.(konnCert := Some(s.value.pair))))
  }

  function HandleKubeconfig(i: nat, st: Store, r: Record, e: Env): Option<(Store, Record)> {
    if i == 5 || i == 6 then
      var m := MutateKubeconfig(st.admin, r.admin, PairOf(st.ca), if i == 5 then "admin.conf" else "super-admin.conf", e);
      if m.None? then None else Some((st.(admin := Some(m.value.0)), r.(admin := Some(m.value.1))))
    else if i == 7 then
      var m := MutateKubeconfig(st.manager, r.manager, PairOf(st.ca), "controller-manager.conf", e);
      if m.None? then None else Some((st.(manager := Some(m.value.0)), r.(manager := Some(m.value.1))))
    else
      var m := MutateKubeconfig(st.scheduler, r.scheduler, PairOf(st.ca), "scheduler.conf", e);
      if m.None? then None else Some((st.(scheduler := Some(m.value.0)), r.(scheduler := Some(m.value.1))))
  }

  datatype Action =
    | Begin
    | Do(e: Env)          // the next handler, its object and its status written
    | Cut(e: Env)         // the next handler's object is written, its status is not: the pass ends
    | Quit                // the pass ends early, or after its last handler
    | Request(store: Store)              // rotation requests, at any time
    | Edit(store: Store, konnectivity: bool)   // edits between passes

  /** `st'` differs from `st` in rotation requests only. */
  predicate OnlyRequests(st: Store, st': Store) {
    && SamePair(st.ca, st'.ca) && SamePair(st.frontCA, st'.frontCA) && SamePair(st.apiServer, st'.apiServer)
    && SamePair(st.kubelet, st'.kubelet) && SamePair(st.frontClient, st'.frontClient)
    && SamePair(st.konnCert, st'.konnCert)
    && SameFiles(st.admin, st'.admin) && SameFiles(st.manager, st'.manager) && SameFiles(st.scheduler, st'.scheduler)
    && (match (st.konn, st'.konn)
        case (None, None) => true
        case (Some(a), Some(b)) => a.config == b.config && a.mark == b.mark
        case _ => false)
  }

  predicate SamePair(a: Option<Secret>, b: Option<Secret>) {
    (a.None? && b.None?) || (a.Some? && b.Some? && a.value.pair == b.value.pair)
  }

  predicate SameFiles(a: Option<KubeSecret>, b: Option<KubeSecret>) {
    (a.None? && b.None?) || (a.Some? && b.Some? && a.value.files == b.value.files)
  }

  /** The client certificate was signed by the authority that the file names. */
  predicate Genuine(k: KubeConfig) { k.client.signer == k.ca.key }

  /** The files for super administrators, if present, are genuine, and both name the same authority. */
  predicate GenuineSuperAdmin(s: Option<KubeSecret>) {
    s.Some? ==>
      var files := s.value.files;
      && ("super-admin.conf" in files ==> Genuine(files["super-admin.conf"]))
      && ("super-admin.svc" in files ==> Genuine(files["super-admin.svc"]))
      && ("super-admin.conf" in files && "super-admin.svc" in files ==> files["super-admin.svc"].ca == files["super-admin.conf"].ca)
  }

  /** The Konnectivity kubeconfig is genuine, or its annotation is not the recorded one. */
  predicate GenuineKonn(s: Option<KonnSecret>, recorded: Option<KubeConfig>) {
    s.Some? && recorded == Some(s.value.mark) ==> Genuine(s.value.config)
  }

  /**
   * Edits that people may make between passes: any, except that a forged super administrator's file
   * and a Konnectivity kubeconfig forged under its recorded annotation are left out, since the
   * handlers keep those.
   */
  predicate Tolerated(st: Store, r: Record) {
    GenuineSuperAdmin(st.admin) && GenuineKonn(st.konn, r.konn)
  }

  function Step(w: World, a: Action): Option<World> {
    match a
    case Begin => if w.next.None? then Some(w.(next := Some(0))) else None
    case Do(e) =>
      if w.next.None? || w.next.value >= HANDLERS then None
      else
        (match Handle(w.next.value, w.store, w.record, w.konnectivity, e)
         case None => None
         case Some((st, r)) => Some(w.(store := st, record := r, next := Some(w.next.value + 1))))
    case Cut(e) =>
      if w.next.None? || w.next.value >= HANDLERS then None
      else
        (match Handle(w.next.value, w.store, w.record, w.konnectivity, e)
         case None => None
         case Some((st, _)) => Some(w.(store := st, next := None)))
    case Quit => if w.next.Some? then Some(w.(next := None)) else None
    case Request(st) => if OnlyRequests(w.store, st) then Some(w.(store := st)) else None
    case Edit(st, k) =>
      if w.next.None? && Tolerated(st, w.record) then Some(w.(store := st, konnectivity := k)) else None
  }

  predicate Initial(w: World) {
    && GenuineSuperAdmin(w.store.admin) && w.next.None?
    && w.record == Record(None, None, None, None, None)
  }

  predicate Run(trace: seq<World>, actions: seq<Action>) {
    && |trace| == |actions| + 1 && Initial(trace[0])
    && forall i {:trigger actions[i]} :: 0 <= i < |actions| ==> Step(trace[i], actions[i]) == Some(trace[i + 1])
  }
}
