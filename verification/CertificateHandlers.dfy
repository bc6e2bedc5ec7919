/**
 * The certificate handlers in their own form: closures that rewrite a Secret in place.  Each is
 * proved to leave the Secret that the functions of `Certificates` describe.
 */
module CertificateHandlers {
  import opened Common
  import opened Certificates

  /** A Secret with a certificate and its key, as fetched from the API server. */
  class CertificateSecret {
    var stored: bool       // it has a UID
    var cert: Option<Cert>
    var key: Option<nat>
    var rotate: bool

    constructor (s: Option<Secret>)
      ensures View() == s
    {
      stored := s.Some?;
      cert := if s.Some? then s.value.pair.cert else None;
      key := if s.Some? then s.value.pair.key else None;
      rotate := s.Some? && s.value.rotate;
    }

    function View(): Option<Secret>
      reads this
    {
      if stored then Some(Secret(Pair(cert, key), rotate)) else None
    }

    /** `rotating` asks for the CARotating status; provisioning tenants are not rotating. */
    method GenerateCA(e: Env, status: Status) returns (rotating: bool)
      modifies this
      ensures View() == Some(MutateCA(old(View()), e))
      ensures rotating <==>
        && (old(View()).None? || old(View()).value.rotate || !ValidPair(old(View()).value.pair, e))
        && !status.Unset? && !status.Provisioning?
    {
      rotating := false;
      if stored && !rotate {
        var valid := ValidPair(Pair(cert, key), e);
        if valid { return; }
      }
      rotating := status != Unset && status != Provisioning;
      cert := Some(Cert(e.key, e.key, e.expiry, {}));
      key := Some(e.key);
      stored, rotate := true, false;
    }

    /** A failed signature leaves the Secret as it was. */
    method Sign(ca: Pair, wanted: set<string>, sans: set<string>, e: Env) returns (ok: bool)
      modifies this
      ensures ok <==> MutateLeaf(old(View()), ca, wanted, sans, e).Some?
      ensures View() == if ok then MutateLeaf(old(View()), ca, wanted, sans, e) else old(View())
    {
      if stored && !rotate {
        var verified := Verifies(Pair(cert, key), ca, e);
        var valid := ValidPair(Pair(cert, key), e);
        if verified && valid && wanted <= cert.value.names { return true; }
      }
      if ca.cert.None? || ca.key.None? { return false; }
      cert := Some(Cert(e.key, ca.key.value, e.expiry, sans));
      key := Some(e.key);
      stored, rotate := true, false;
      return true;
    }
  }

  /** A Secret with kubeconfig files, and its checksum annotation. */
  class KubeconfigSecret {
    var stored: bool
    var files: map<string, KubeConfig>
    var rotate: bool
    var annotation: Option<Sum>

    constructor (s: Option<KubeSecret>)
      ensures View() == s
    {
      stored := s.Some?;
      files := if s.Some? then s.value.files else map[];
      rotate := s.Some? && s.value.rotate;
      annotation := None;
    }

    function View(): Option<KubeSecret>
      reads this
    {
      if stored then Some(KubeSecret(files, rotate)) else None
    }

    method RenderFile(recorded: Option<Sum>, ca: Pair, file: string, e: Env) returns (ok: bool)
      requires !stored ==> files == map[]
      modifies this
      ensures ok <==> MutateKubeconfig(old(View()), recorded, ca, file, e).Some?
      ensures ok ==>
        var m := MutateKubeconfig(old(View()), recorded, ca, file, e).value;
        View() == Some(m.0) && annotation == Some(m.1)
      ensures !ok ==> View() == old(View())
    {
      var sum := Sum(ca, e.before, files);
      annotation := Some(sum);
      var create := !stored || file !in files;
      create := create || ca.cert != Some(files[file].ca);
      create := create || !ValidConfig(files[file], e);
      create := create || recorded != Some(sum);
      if create || rotate {
        if ca.cert.None? || ca.key.None? { return false; }
        files := files[file := Render(ca, e.key, e)];
        var local := Local(file);
        if local.Some? { files := files[local.value := Render(ca, e.key', e)]; }
        stored, rotate := true, false;
        annotation := Some(Sum(ca, e.after, files));
      }
      return true;
    }
  }
}
