/**
 * The Deployment builder in its own form: it edits the pod specification in place, by index.  The
 * whole build is proved to leave what `PodBuilder.Build` describes.
 */
module PodEditor {
  import opened Common
  import opened NamedLists
  import opened PodBuilder
  import ApiServerFlags
  import ExtraArguments

  /** Item after item: overwrite it where it is found, append it otherwise, or cut it out. */
  method RunScript<T>(s: seq<Item<Name, T>>, ops: seq<Op<Name, T>>, blank: T) returns (r: seq<Item<Name, T>>)
    ensures r == Apply(s, ops, blank)
  {
    r := s;
    for i := 0 to |ops|
      invariant Apply(r, ops[i..], blank) == Apply(s, ops, blank)
    {
      ghost var was := r;
      var op := ops[i];
      if op.Write? {
        var index;
        r, index := Locate(r, op.name, blank);
        var body := op.f(r[index].body);
        r := r[index := Item(op.name, body)];
        assert r == Put(was, op.name, body);
      } else {
        var found, index := HasNamed(r, op.name);
        if found { r := r[..index] + r[index + 1..]; }
      }
      assert r == Do(was, op, blank);
      assert ops[i..][1..] == ops[i + 1..];
    }
    assert ops[|ops|..] == [];
  }

  /** The position of an item, which is appended blank if missing. */
  method Locate<T>(s: seq<Item<Name, T>>, name: Name, blank: T) returns (r: seq<Item<Name, T>>, index: nat)
    ensures index < |r| && r[index].body == Get(s, name, blank)
    ensures forall body :: r[index := Item(name, body)] == Put(s, name, body)
  {
    var found, i := HasNamed(s, name);
    if found { return s, i; }
    AbsentGet(s, name, blank);
    return s + [Item(name, blank)], |s|;
  }

  lemma {:induction false} AbsentGet<T>(s: seq<Item<Name, T>>, name: Name, blank: T)
    requires !Has(s, name)
    ensures Get(s, name, blank) == blank
  {
    if s != [] { AbsentGet(s[1..], name, blank); }
  }

  /** The user's items, then the system's from `first` on. */
  method Renew<T>(s: seq<Item<Name, T>>, user: seq<Item<Name, T>>, first: Name) returns (r: seq<Item<Name, T>>)
    ensures r == user + Tail(s, first)
  {
    r := user;
    var found, index := HasNamed(s, first);
    if found { r := r + s[index..]; }
  }

  /** Arguments without the given flag. */
  method DeleteFlag(args: seq<string>, flag: string) returns (r: seq<string>)
    ensures r == ApiServerFlags.Drop(args, {flag})
  {
    r := [];
    for i := 0 to |args|
      invariant r == ApiServerFlags.Drop(args[..i], {flag})
    {
      assert args[..i + 1][..i] == args[..i];
      if ApiServerFlags.Flag(args[i]) != flag { r := r + [args[i]]; }
    }
    assert args[..|args|] == args;
  }

  method RemoveEgress(args: seq<string>) returns (r: seq<string>)
    ensures r == ExtraArguments.Strip(args, true)
  {
    r := [];
    for i := 0 to |args|
      invariant r + ExtraArguments.Strip(args[i..], true) == ExtraArguments.Strip(args, true)
    {
      assert args[i..][1..] == args[i + 1..];
      if !(ExtraArguments.EGRESS <= args[i]) { r := r + [args[i]]; }
    }
  }

  /** `defaultsOrder` and `managedOrder` are the orders in which the two tables happen to be visited. */
  method BuildCommand(current: seq<string>, c: Config, defaultsOrder: seq<string>, managedOrder: seq<string>) returns (args: seq<string>)
    requires ApiServerFlags.Named(c.defaults) && ApiServerFlags.Named(c.managed)
    requires ApiServerFlags.Enumerates(defaultsOrder, c.defaults) && ApiServerFlags.Enumerates(managedOrder, c.managed)
    ensures args == ExtraArguments.MergeInto(current, SetupOf(c))
  {
    var kept := current;
    if !c.overrides { kept := DeleteFlag(kept, ExtraArguments.OVERRIDES); }
    args := ApiServerFlags.MergeArguments(kept, ExtraArguments.Extras(SetupOf(c)), c.defaults, c.managed, defaultsOrder, managedOrder);
  }

  method EditKubeAPIServer(b: Container, c: Config, defaultsOrder: seq<string>, managedOrder: seq<string>) returns (r: Container)
    requires ApiServerFlags.Named(c.defaults) && ApiServerFlags.Named(c.managed)
    requires ApiServerFlags.Enumerates(defaultsOrder, c.defaults) && ApiServerFlags.Enumerates(managedOrder, c.managed)
    ensures r == ApiContainer(b, c)
  {
    var args := BuildCommand(b.args, c, defaultsOrder, managedOrder);
    var mounts := Renew(b.mounts, c.apiMounts, Pki);
    mounts := RunScript(mounts, ApiMountOps(c), NOMOUNT);
    r := Container(c.api.image, args, mounts, c.api.settings, b.other);
  }

  class PodSpec {
    var annotation: Option<string>
    var inits: Containers
    var containers: Containers
    var volumes: Volumes

    constructor (d: Deployment)
      ensures View() == d
    {
      annotation, inits, containers, volumes := d.annotation, d.inits, d.containers, d.volumes;
    }

    function View(): Deployment
      reads this
    {
      Deployment(annotation, inits, containers, volumes)
    }

    method ResetKubeAPIServerFlags(c: Config)
      modifies this
      ensures View() == ResetFlags(old(View()), c)
    {
      var found, index := HasNamed(containers, KubeApiServer);
      if found { PutBack(containers, KubeApiServer, NOCONTAINER); }
      if c.extraArgs.None? && annotation.None? { return; }
      if !found { return; }
      var digest := ExtraArguments.Digest(ExtraArguments.Extras(SetupOf(c)));
      if annotation != Some(digest) {
        var b := containers[index].body.(args := []);
        assert containers[index := Item(KubeApiServer, b)] == Put(containers, KubeApiServer, b);
        containers := containers[index := Item(KubeApiServer, b)];
      }
      annotation := Some(digest);
    }

    method BuildKubeAPIServer(c: Config, defaultsOrder: seq<string>, managedOrder: seq<string>)
      requires ApiServerFlags.Named(c.defaults) && ApiServerFlags.Named(c.managed)
      requires ApiServerFlags.Enumerates(defaultsOrder, c.defaults) && ApiServerFlags.Enumerates(managedOrder, c.managed)
      modifies this
      ensures View() == old(View()).(containers :=
        Put(old(containers), KubeApiServer, ApiContainer(Get(old(containers), KubeApiServer, NOCONTAINER), c)))
    {
      var index;
      containers, index := Locate(containers, KubeApiServer, NOCONTAINER);
      var b := containers[index].body;
      var api := EditKubeAPIServer(b, c, defaultsOrder, managedOrder);
      containers := containers[index := Item(KubeApiServer, api)];
    }

    method BuildKonnectivity(c: Config)
      modifies this
      ensures inits == old(inits) && volumes == old(volumes) && annotation == old(annotation)
      ensures containers == EditAddon(old(containers), c)
    {
      var found, index := HasNamed(containers, KubeApiServer);
      if !found { return; }
      var b := containers[index].body;
      var args := b.args;
      if c.addon.Removing? { args := RemoveEgress(args); } else { Unstripped(args); }
      var mounts := RunScript(b.mounts, AddonMountOps(c), NOMOUNT);
      var b' := b.(args := args, mounts := mounts);
      assert containers[index := Item(KubeApiServer, b')] == Put(containers, KubeApiServer, b');
      containers := containers[index := Item(KubeApiServer, b')];
    }

    method SetContainers(c: Config, defaultsOrder: seq<string>, managedOrder: seq<string>)
      requires ApiServerFlags.Named(c.defaults) && ApiServerFlags.Named(c.managed)
      requires ApiServerFlags.Enumerates(defaultsOrder, c.defaults) && ApiServerFlags.Enumerates(managedOrder, c.managed)
      modifies this
      ensures inits == old(inits) && volumes == old(volumes) && annotation == old(annotation)
      ensures containers == BuildContainers(old(containers), c)
    {
      containers := Renew(containers, c.containers, KubeApiServer);
      BuildKubeAPIServer(c, defaultsOrder, managedOrder);
      containers := RunScript(containers, OtherOps(c), NOCONTAINER);
      BuildKonnectivity(c);
    }

    method SetInitContainers(c: Config)
      modifies this
      ensures containers == old(containers) && volumes == old(volumes) && annotation == old(annotation)
      ensures inits == BuildInits(old(inits), c)
    {
      if c.driver.Etcd? { inits := c.inits; }
      inits := Renew(inits, c.inits, Chmod);
      inits := RunScript(inits, InitOps(c), NOCONTAINER);
    }

    method SetVolumes(c: Config)
      modifies this
      ensures containers == old(containers) && inits == old(inits) && annotation == old(annotation)
      ensures volumes == BuildVolumes(old(volumes), c)
    {
      volumes := RunScript(volumes, KineVolumeOps(c), "");
      volumes := Renew(volumes, c.volumes, Pki);
      volumes := RunScript(volumes, VolumeOps(c), "");
    }

    method Build(c: Config, defaultsOrder: seq<string>, managedOrder: seq<string>)
      requires ApiServerFlags.Named(c.defaults) && ApiServerFlags.Named(c.managed)
      requires ApiServerFlags.Enumerates(defaultsOrder, c.defaults) && ApiServerFlags.Enumerates(managedOrder, c.managed)
      modifies this
      ensures View() == PodBuilder.Build(old(View()), c)
    {
      ResetKubeAPIServerFlags(c);
      ghost var r := View();
      SetInitContainers(c);
      SetContainers(c, defaultsOrder, managedOrder);
      SetVolumes(c);
    }
  }

  lemma {:induction false} Unstripped(args: seq<string>)
    ensures ExtraArguments.Strip(args, false) == args
  {
    if args != [] {
      Unstripped(args[1..]);
      assert args == [args[0]] + args[1..];
    }
  }
}
