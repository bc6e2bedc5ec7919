/**
 * One build of the control plane Deployment: the lists of the pod specification are edited from
 * what the API server holds, the user's items in front and Kamaji's own behind.
 */
module PodBuilder {
  import opened Common
  import opened NamedLists
  import ApiServerFlags
  import ExtraArguments

  /** The names Kamaji uses for containers and volumes; `Other` is any name besides these. */
  datatype Name =
    | KubeApiServer | KubeScheduler | KubeControllerManager | Kine | Chmod | KonnectivityServer
    | Pki | EtcCa | UsrShareCa | UsrLocalCa | SchedulerConf | ManagerConf
    | KineUds | KineConfig | KineCerts
    | KonnectivityUds | EgressConf | KonnectivityConf
    | Other(text: string)

  const CONTAINERS: set<Name> := {KubeApiServer, KubeScheduler, KubeControllerManager, Kine, KonnectivityServer}

  const VOLUMES: set<Name> :=
    {Pki, EtcCa, UsrShareCa, UsrLocalCa, SchedulerConf, ManagerConf, KineUds, KineConfig, KineCerts,
     KonnectivityUds, EgressConf, KonnectivityConf}

  const INITS: set<Name> := {Chmod}

  /** `other` stands for the fields the builder leaves alone. */
  datatype Mount = Mount(path: string, readOnly: bool, other: string)

  type Mounts = seq<Item<Name, Mount>>

  /** `settings` stands for command, probes, resources, security context, ports and environment. */
  datatype Container = Container(image: string, args: seq<string>, mounts: Mounts, settings: string, other: string)

  type Containers = seq<Item<Name, Container>>

  /** Volumes carry their source. */
  type Volumes = seq<Item<Name, string>>

  const NOMOUNT := Mount("", false, "")
  const NOCONTAINER := Container("", [], [], "", "")

  datatype Driver = Etcd | KineDriver(tls: bool)

  /** `Removing`: switched off while the status still records it as enabled. */
  datatype Addon = On | Removing | Off

  /** What Kamaji writes into a container; for the kube-apiserver, the arguments are rendered. */
  datatype Written = Written(image: string, args: seq<string>, settings: string)

  datatype Config = Config(
    driver: Driver, addon: Addon,
    inits: Containers, containers: Containers, volumes: Volumes,
    apiMounts: Mounts, schedulerMounts: Mounts, managerMounts: Mounts,
    extraArgs: Option<seq<string>>, defaults: ApiServerFlags.Table, managed: ApiServerFlags.Table, overrides: bool,
    api: Written, scheduler: Written, manager: Written, kine: Written, chmod: Written, konnectivity: Written,
    source: Name -> string)

  datatype Deployment = Deployment(annotation: Option<string>, inits: Containers, containers: Containers, volumes: Volumes)

  function SetupOf(c: Config): ExtraArguments.Setup {
    ExtraArguments.Setup(c.extraArgs, c.defaults, c.managed, c.overrides, c.addon.Removing?)
  }

  // ---------- mounts ----------

  function Ensure(name: Name, path: string, readOnly: bool): Op<Name, Mount> {
    Write(name, (m: Mount) => Mount(path, readOnly, ""))
  }

  /** Fields are assigned one by one, the rest of the mount stays. */
  function Touch(name: Name, path: string): Op<Name, Mount> {
    Write(name, (m: Mount) => m.(path := path, readOnly := false))
  }

  function PkiMounts(): seq<Op<Name, Mount>> {
    [Ensure(Pki, "/etc/kubernetes/pki", true), Ensure(EtcCa, "/etc/ca-certificates", true),
     Ensure(UsrShareCa, "/usr/share/ca-certificates", true), Ensure(UsrLocalCa, "/usr/local/share/ca-certificates", true)]
  }

  function ApiMountOps(c: Config): seq<Op<Name, Mount>> {
    (if c.driver.Etcd? then [] else [Ensure(KineUds, "/uds", false)]) + PkiMounts()
  }

  function AddonMountOps(c: Config): seq<Op<Name, Mount>> {
    match c.addon
    case On => [Touch(KonnectivityUds, "/run/konnectivity"), Touch(EgressConf, "/etc/kubernetes/konnectivity/configurations")]
    case Removing => [Delete(KonnectivityUds), Delete(EgressConf), Delete(KonnectivityConf)]
    case Off => []
  }

  function SchedulerMountOps(): seq<Op<Name, Mount>> {
    [Ensure(SchedulerConf, "/etc/kubernetes", true)]
  }

  function ManagerMountOps(): seq<Op<Name, Mount>> {
    [Ensure(ManagerConf, "/etc/kubernetes", true)] + PkiMounts()
  }

  // ---------- containers ----------

  ghost function ApiContainer(b: Container, c: Config): Container {
    Container(c.api.image,
              ExtraArguments.MergeInto(b.args, SetupOf(c)),
              Refresh(b.mounts, c.apiMounts, Pki, ApiMountOps(c), NOMOUNT),
              c.api.settings, b.other)
  }

  /** What switching Konnectivity on or off does to the kube-apiserver container. */
  function AddonContainer(b: Container, c: Config): Container {
    b.(args := ExtraArguments.Strip(b.args, c.addon.Removing?), mounts := Apply(b.mounts, AddonMountOps(c), NOMOUNT))
  }

  function SchedulerContainer(b: Container, c: Config): Container {
    Container(c.scheduler.image, c.scheduler.args,
              Refresh(b.mounts, c.schedulerMounts, SchedulerConf, SchedulerMountOps(), NOMOUNT), c.scheduler.settings, b.other)
  }

  function ManagerContainer(b: Container, c: Config): Container {
    Container(c.manager.image, c.manager.args,
              Refresh(b.mounts, c.managerMounts, ManagerConf, ManagerMountOps(), NOMOUNT), c.manager.settings, b.other)
  }

  /** The image of kine and of its init container is set only once. */
  function KineContainer(b: Container, w: Written, mounts: Mounts): Container {
    Container(if b.image == "" then w.image else b.image, w.args, mounts, w.settings, b.other)
  }

  function KineMounts(): Mounts {
    [Item(KineCerts, Mount("/certs", false, "")), Item(KineUds, Mount("/uds", false, ""))]
  }

  function ChmodMounts(): Mounts {
    [Item(KineConfig, Mount("/kine", true, "")), Item(KineCerts, Mount("/certs", false, ""))]
  }

  function KonnectivityMounts(): Mounts {
    [Item(Pki, Mount("/etc/kubernetes/pki", true, "")),
     Item(KonnectivityConf, Mount("/etc/kubernetes/konnectivity-server.conf", true, "konnectivity-server.conf")),
     Item(KonnectivityUds, Mount("/run/konnectivity", false, ""))]
  }

  /** The containers besides the kube-apiserver. */
  function OtherOps(c: Config): seq<Op<Name, Container>> {
    [Write(KubeScheduler, (b: Container) => SchedulerContainer(b, c)), Write(KubeControllerManager, (b: Container) => ManagerContainer(b, c))]
    + (if c.driver.Etcd? then [Delete(Kine)] else [Write(Kine, (b: Container) => KineContainer(b, c.kine, KineMounts()))])
    + (match c.addon
       case On => [Write(KonnectivityServer, (b: Container) =>
                     Container(c.konnectivity.image, c.konnectivity.args, KonnectivityMounts(), c.konnectivity.settings, b.other))]
       case Removing => [Delete(KonnectivityServer)]
       case Off => [])
  }

  ghost function BuildContainers(s: Containers, c: Config): Containers {
    var s1 := c.containers + Tail(s, KubeApiServer);
    var s2 := Put(s1, KubeApiServer, ApiContainer(Get(s1, KubeApiServer, NOCONTAINER), c));
    var s3 := Apply(s2, OtherOps(c), NOCONTAINER);
    EditAddon(s3, c)
  }

  function EditAddon(s: Containers, c: Config): Containers {
    if Has(s, KubeApiServer) then Put(s, KubeApiServer, AddonContainer(Get(s, KubeApiServer, NOCONTAINER), c)) else s
  }

  function InitOps(c: Config): seq<Op<Name, Container>> {
    if c.driver == KineDriver(true) then [Write(Chmod, (b: Container) => KineContainer(b, c.chmod, ChmodMounts()))] else [Delete(Chmod)]
  }

  function BuildInits(s: Containers, c: Config): Containers {
    Refresh(if c.driver.Etcd? then c.inits else s, c.inits, Chmod, InitOps(c), NOCONTAINER)
  }

  // ---------- volumes ----------

  function Source(name: Name, c: Config): Op<Name, string> {
    Write(name, (v: string) => c.source(name))
  }

  function VolumeOps(c: Config): seq<Op<Name, string>> {
    [Source(Pki, c), Source(EtcCa, c), Source(UsrShareCa, c), Source(UsrLocalCa, c), Source(SchedulerConf, c), Source(ManagerConf, c)]
    + (if c.driver.Etcd? then [] else [Source(KineUds, c), Source(KineConfig, c), Source(KineCerts, c)])
    + (match c.addon
       case On => [Source(KonnectivityUds, c), Source(EgressConf, c), Source(KonnectivityConf, c)]
       case Removing => [Delete(KonnectivityUds), Delete(EgressConf), Delete(KonnectivityConf)]
       case Off => [])
  }

  /** Volumes of a former kine go before the user's volumes are renewed. */
  function KineVolumeOps(c: Config): seq<Op<Name, string>> {
    if c.driver.Etcd? then [Delete(KineCerts), Delete(KineConfig), Delete(KineUds)] else []
  }

  function BuildVolumes(s: Volumes, c: Config): Volumes {
    Refresh(Apply(s, KineVolumeOps(c), ""), c.volumes, Pki, VolumeOps(c), "")
  }

  // ---------- the Deployment ----------

  function FlagsOf(d: Deployment): ExtraArguments.Flags {
    ExtraArguments.Flags(d.annotation,
      if Has(d.containers, KubeApiServer) then Some(Get(d.containers, KubeApiServer, NOCONTAINER).args) else None)
  }

  /** A change of the extra arguments clears the arguments first. */
  function ResetFlags(d: Deployment, c: Config): Deployment {
    var f := ExtraArguments.Reset(FlagsOf(d), SetupOf(c));
    d.(annotation := f.annotation,
       containers := if f.args.Some?
         then Put(d.containers, KubeApiServer, Get(d.containers, KubeApiServer, NOCONTAINER).(args := f.args.value))
         else d.containers)
  }

  ghost function Build(d: Deployment, c: Config): Deployment {
    var r := ResetFlags(d, c);
    Deployment(r.annotation, BuildInits(r.inits, c), BuildContainers(r.containers, c), BuildVolumes(r.volumes, c))
  }

  const EMPTY := Deployment(None, [], [], [])
}
