/** The API server of the test control plane: lazy argument configuration,
    the one-time set-up of its process state (an etcd URL is required; the
    secure port and the URL are defaulted from a port allocator; the health
    check is pointed at the URL; serving certificates are generated unless
    they already exist; the final flags come from the argument templates),
    and starting and stopping the process.

    The port allocator, the process package, the certificate authority, the
    template expansion and the file system are supplied from outside: the
    first four as the values of an `Environment`, the file system as a
    `FileSystem` object whose contents are a `Disk` value. */
module ControlPlane {
  import opened Results
  import opened Url
  import Process

  type Bytes = seq<bv8>

  // ---------------------------------------------------------------------------
  // File system

  /** The permission bits of the certificate files, octal 0640. */
  const CertFileMode: int := 416

  datatype File = File(data: Bytes, mode: int)

  /** The files on disk, the paths written so far (oldest first), and the
      paths whose stat or write fails, with the error it fails with. */
  datatype Disk = Disk(
    files: map<string, File>,
    written: seq<string>,
    statFailures: map<string, Error>,
    writeFailures: map<string, Error>)

  /** What looking a path up reports. */
  datatype StatOutcome = Exists | NotExist | StatFailed(err: Error)

  function DiskStat(d: Disk, path: string): (o: StatOutcome)
    ensures o.Exists? <==> path !in d.statFailures && path in d.files
    ensures o.NotExist? <==> path !in d.statFailures && path !in d.files
  {
    if path in d.statFailures then StatFailed(d.statFailures[path])
    else if path in d.files then Exists
    else NotExist
  }

  /** The mode a written file ends up with: a file that already exists keeps
      its mode, a new one gets the requested mode. */
  function ModeAfterWrite(files: map<string, File>, path: string, mode: int): (m: int)
    ensures path !in files ==> m == mode
    ensures path in files ==> m == files[path].mode
  {
    if path in files then files[path].mode else mode
  }

  /** Writes one file, replacing the data of an existing one, or fails
      without changing anything. */
  function DiskWrite(d: Disk, path: string, data: Bytes, mode: int): (r: (Disk, Option<Error>))
    ensures path in d.writeFailures ==> r == (d, Some(d.writeFailures[path]))
    ensures path !in d.writeFailures ==>
      r.1 == None && r.0.files == d.files[path := File(data, ModeAfterWrite(d.files, path, mode))]
    ensures path !in d.writeFailures ==> r.0.written == d.written + [path]
    ensures r.0.statFailures == d.statFailures && r.0.writeFailures == d.writeFailures
  {
    if path in d.writeFailures then (d, Some(d.writeFailures[path]))
    else
      var f := File(data, if path in d.files then d.files[path].mode else mode);
      (d.(files := d.files[path := f], written := d.written + [path]), None)
  }

  /** The file system, updated in place by writes. */
  class FileSystem {
    var disk: Disk

    constructor (disk: Disk)
      ensures this.disk == disk
    {
      this.disk := disk;
    }

    method Stat(path: string) returns (o: StatOutcome)
      ensures o == DiskStat(disk, path)
    {
      o := DiskStat(disk, path);
    }

    method WriteFile(path: string, data: Bytes, mode: int) returns (err: Option<Error>)
      modifies this
      ensures (disk, err) == DiskWrite(old(disk), path, data, mode)
    {
      var r := DiskWrite(disk, path, data, mode);
      disk := r.0;
      err := r.1;
    }
  }

  /** A file name inside a directory. */
  function Join(dir: string, name: string): (p: string)
    ensures |name| <= |p| && p[|p| - |name|..] == name
  {
    if dir == "" then name else dir + "/" + name
  }

  /** Distinct names in one directory are distinct paths. */
  lemma JoinInjective(dir: string, a: string, b: string)
    requires a != b
    ensures Join(dir, a) != Join(dir, b)
  {
    if dir != "" {
      assert Join(dir, a)[|dir| + 1..] == a;
      assert Join(dir, b)[|dir| + 1..] == b;
    }
  }

  // ---------------------------------------------------------------------------
  // Certificates

  datatype CertKeyPair = CertKeyPair(cert: Bytes, key: Bytes)

  /** A serving certificate and what encoding it yields. */
  datatype ServingCert = ServingCert(asBytes: Result<CertKeyPair>)

  /** A freshly created certificate authority: its own certificate, and what
      asking it for a serving certificate yields. */
  datatype TinyCA = TinyCA(caCert: Bytes, servingCert: Result<ServingCert>)

  const CACertName := "apiserver-ca.crt"
  const CertName := "apiserver.crt"
  const KeyName := "apiserver.key"

  /** Performs the writes in order and stops at the first one that fails. */
  function WriteAll(d: Disk, writes: seq<(string, Bytes)>): (r: (Disk, Option<Error>))
    ensures r.0.statFailures == d.statFailures && r.0.writeFailures == d.writeFailures
    decreases |writes|
  {
    if writes == [] then (d, None)
    else
      var first := DiskWrite(d, writes[0].0, writes[0].1, CertFileMode);
      if first.1.Some? then first else WriteAll(first.0, writes[1..])
  }

  /** Three writes, spelt out one after the other. */
  lemma WriteAllThree(d: Disk, writes: seq<(string, Bytes)>)
    requires |writes| == 3
    ensures var (d1, e1) := DiskWrite(d, writes[0].0, writes[0].1, CertFileMode);
      var (d2, e2) := DiskWrite(d1, writes[1].0, writes[1].1, CertFileMode);
      WriteAll(d, writes) ==
        if e1.Some? then (d1, e1)
        else if e2.Some? then (d2, e2)
        else DiskWrite(d2, writes[2].0, writes[2].1, CertFileMode)
  {
    var (d1, e1) := DiskWrite(d, writes[0].0, writes[0].1, CertFileMode);
    if e1.None? {
      var rest := writes[1..];
      assert WriteAll(d, writes) == WriteAll(d1, rest);
      assert rest[0] == writes[1];
      var (d2, e2) := DiskWrite(d1, writes[1].0, writes[1].1, CertFileMode);
      if e2.None? {
        var last := rest[1..];
        assert WriteAll(d1, rest) == WriteAll(d2, last);
        assert last == [writes[2]] && last[1..] == [];
        var d3 := DiskWrite(d2, writes[2].0, writes[2].1, CertFileMode).0;
        assert WriteAll(d3, last[1..]) == (d3, None);
      } else {
        assert WriteAll(d1, rest) == (d2, e2);
      }
    }
  }

  /** The paths of a list of writes. */
  function Paths(writes: seq<(string, Bytes)>): (ps: seq<string>)
    ensures |ps| == |writes| && forall i :: 0 <= i < |writes| ==> ps[i] == writes[i].0
  {
    if writes == [] then [] else [writes[0].0] + Paths(writes[1..])
  }

  /** The number of leading writes whose path does not fail. */
  function Succeeding(d: Disk, writes: seq<(string, Bytes)>): (n: nat)
    ensures n <= |writes|
    ensures forall i :: 0 <= i < n ==> writes[i].0 !in d.writeFailures
    ensures n < |writes| ==> writes[n].0 in d.writeFailures
  {
    if writes == [] || writes[0].0 in d.writeFailures then 0
    else 1 + Succeeding(d, writes[1..])
  }

  /** A first write that succeeds is followed by the remaining writes from
      the disk it leaves. */
  lemma WriteAllStep(d: Disk, writes: seq<(string, Bytes)>)
    requires writes != [] && writes[0].0 !in d.writeFailures
    ensures var d1 := DiskWrite(d, writes[0].0, writes[0].1, CertFileMode).0;
      && d1.written == d.written + [writes[0].0]
      && WriteAll(d, writes) == WriteAll(d1, writes[1..])
      && Succeeding(d1, writes[1..]) == Succeeding(d, writes) - 1
      && Paths(writes)[..Succeeding(d, writes)]
         == [writes[0].0] + Paths(writes[1..])[..Succeeding(d, writes) - 1]
  {
    var n := Succeeding(d, writes);
    assert Paths(writes) == [writes[0].0] + Paths(writes[1..]);
  }

  /** The writes happen in order up to the first failing one; later ones
      never happen. */
  lemma {:induction false} WriteAllWritten(d: Disk, writes: seq<(string, Bytes)>)
    ensures WriteAll(d, writes).0.written == d.written + Paths(writes)[..Succeeding(d, writes)]
    decreases |writes|
  {
    if writes == [] || writes[0].0 in d.writeFailures {
      assert Paths(writes)[..Succeeding(d, writes)] == [];
    } else {
      var d1 := DiskWrite(d, writes[0].0, writes[0].1, CertFileMode).0;
      WriteAllStep(d, writes);
      WriteAllWritten(d1, writes[1..]);
      AppendAfterFirst(d.written, writes[0].0, Paths(writes[1..])[..Succeeding(d, writes) - 1]);
    }
  }

  /** Recording one path and then some more is recording all of them. */
  lemma AppendAfterFirst(written: seq<string>, first: string, rest: seq<string>)
    ensures (written + [first]) + rest == written + ([first] + rest)
  {
  }

  /** The error returned is that of the first failing write, if any. */
  lemma {:induction false} WriteAllError(d: Disk, writes: seq<(string, Bytes)>)
    ensures var n := Succeeding(d, writes);
      && (n < |writes| ==> WriteAll(d, writes).1 == Some(d.writeFailures[writes[n].0]))
      && (n == |writes| ==> WriteAll(d, writes).1 == None)
    decreases |writes|
  {
    if writes != [] && writes[0].0 !in d.writeFailures {
      var d1 := DiskWrite(d, writes[0].0, writes[0].1, CertFileMode).0;
      assert WriteAll(d, writes) == WriteAll(d1, writes[1..]);
      WriteAllError(d1, writes[1..]);
      assert Succeeding(d1, writes[1..]) == Succeeding(d, writes) - 1;
    }
  }

  /** A write that succeeds leaves its file holding exactly the data written,
      provided no later write goes to the same path; the file keeps the mode
      it had before the writes, and a file they create gets mode 0640. */
  lemma {:induction false} WriteAllStores(d: Disk, writes: seq<(string, Bytes)>, i: nat)
    requires i < Succeeding(d, writes)
    requires forall j :: i < j < |writes| ==> writes[j].0 != writes[i].0
    ensures writes[i].0 in WriteAll(d, writes).0.files
    ensures WriteAll(d, writes).0.files[writes[i].0]
         == File(writes[i].1, ModeAfterWrite(d.files, writes[i].0, CertFileMode))
    decreases |writes|
  {
    var d1 := DiskWrite(d, writes[0].0, writes[0].1, CertFileMode).0;
    if i == 0 {
      WriteAllKeeps(d1, writes[1..], writes[0].0);
    } else {
      assert Succeeding(d1, writes[1..]) == Succeeding(d, writes) - 1;
      WriteAllStores(d1, writes[1..], i - 1);
      var p := writes[i].0;
      assert ModeAfterWrite(d1.files, p, CertFileMode) == ModeAfterWrite(d.files, p, CertFileMode);
    }
  }

  /** A file no write goes to is left as it was. */
  lemma {:induction false} WriteAllKeeps(d: Disk, writes: seq<(string, Bytes)>, path: string)
    requires forall j :: 0 <= j < |writes| ==> writes[j].0 != path
    ensures path in WriteAll(d, writes).0.files <==> path in d.files
    ensures path in d.files ==> WriteAll(d, writes).0.files[path] == d.files[path]
    decreases |writes|
  {
    if writes != [] && writes[0].0 !in d.writeFailures {
      var d1 := DiskWrite(d, writes[0].0, writes[0].1, CertFileMode).0;
      WriteAllKeeps(d1, writes[1..], path);
    }
  }

  /** The certificate files to write, in order: the CA certificate, the
      serving certificate, the serving key. */
  function CertWrites(certDir: string, ca: TinyCA, pair: CertKeyPair): (w: seq<(string, Bytes)>)
    ensures |w| == 3 && w[1].0 == Join(certDir, CertName)
    ensures forall i, j :: 0 <= i < j < |w| ==> w[i].0 != w[j].0
  {
    JoinInjective(certDir, CACertName, CertName);
    JoinInjective(certDir, CACertName, KeyName);
    JoinInjective(certDir, CertName, KeyName);
    [(Join(certDir, CACertName), ca.caCert),
     (Join(certDir, CertName), pair.cert),
     (Join(certDir, KeyName), pair.key)]
  }

  /** Generates serving certificates into `certDir` unless `apiserver.crt`
      is already there: a stat error other than "does not exist" is returned
      as is, as is any failure of the certificate authority, and the three
      files are written in order up to the first failing write. */
  function PopulateCerts(certDir: string, d: Disk, ca: Result<TinyCA>): (r: (Disk, Option<Error>))
  {
    match DiskStat(d, Join(certDir, CertName))
    case Exists => (d, None)
    case StatFailed(e) => (d, Some(e))
    case NotExist =>
      if ca.Err? then (d, Some(ca.error))
      else if ca.value.servingCert.Err? then (d, Some(ca.value.servingCert.error))
      else if ca.value.servingCert.value.asBytes.Err? then (d, Some(ca.value.servingCert.value.asBytes.error))
      else WriteAll(d, CertWrites(certDir, ca.value, ca.value.servingCert.value.asBytes.value))
  }

  /** Existing certificates are kept: nothing is written and nothing is
      reported. A failed lookup is reported and nothing is written. */
  lemma PopulateCertsWithoutGenerating(certDir: string, d: Disk, ca: Result<TinyCA>)
    ensures DiskStat(d, Join(certDir, CertName)).Exists? ==> PopulateCerts(certDir, d, ca) == (d, None)
    ensures DiskStat(d, Join(certDir, CertName)).StatFailed? ==>
      PopulateCerts(certDir, d, ca) == (d, Some(DiskStat(d, Join(certDir, CertName)).err))
    ensures !DiskStat(d, Join(certDir, CertName)).NotExist? ==> PopulateCerts(certDir, d, ca).0 == d
  {
  }

  /** When the certificate is missing and the authority delivers, the CA
      certificate, the certificate and the key are written in that order, up
      to the first failing write, whose error is returned. */
  lemma PopulateCertsWrites(certDir: string, d: Disk, tca: TinyCA, pair: CertKeyPair)
    requires DiskStat(d, Join(certDir, CertName)).NotExist?
    requires tca.servingCert == Ok(ServingCert(Ok(pair)))
    ensures var writes := CertWrites(certDir, tca, pair);
      var n := Succeeding(d, writes);
      var r := PopulateCerts(certDir, d, Ok(tca));
      && r.0.written == d.written + Paths(writes)[..n]
      && (n < 3 ==> r.1 == Some(d.writeFailures[writes[n].0]))
      && (n == 3 ==> r.1 == None)
  {
    var writes := CertWrites(certDir, tca, pair);
    WriteAllWritten(d, writes);
    WriteAllError(d, writes);
  }

  /** When every write succeeds the three files hold the generated data and
      no error is reported; the certificate, which did not exist, is created
      with mode 0640, and the CA certificate and the key get mode 0640 when
      they are created and keep their mode when they already existed. */
  lemma PopulateCertsStores(certDir: string, d: Disk, tca: TinyCA, pair: CertKeyPair)
    requires DiskStat(d, Join(certDir, CertName)).NotExist?
    requires tca.servingCert == Ok(ServingCert(Ok(pair)))
    requires forall name :: name in [CACertName, CertName, KeyName] ==> Join(certDir, name) !in d.writeFailures
    ensures var r := PopulateCerts(certDir, d, Ok(tca));
      && r.1 == None
      && Join(certDir, CACertName) in r.0.files
      && Join(certDir, CertName) in r.0.files
      && Join(certDir, KeyName) in r.0.files
      && r.0.files[Join(certDir, CACertName)]
         == File(tca.caCert, ModeAfterWrite(d.files, Join(certDir, CACertName), CertFileMode))
      && r.0.files[Join(certDir, CertName)] == File(pair.cert, CertFileMode)
      && r.0.files[Join(certDir, KeyName)]
         == File(pair.key, ModeAfterWrite(d.files, Join(certDir, KeyName), CertFileMode))
  {
    var writes := CertWrites(certDir, tca, pair);
    JoinInjective(certDir, CACertName, CertName);
    JoinInjective(certDir, CACertName, KeyName);
    JoinInjective(certDir, CertName, KeyName);
    assert Succeeding(d, writes) == 3 by {
      assert writes[0].0 !in d.writeFailures;
      assert writes[1].0 !in d.writeFailures;
      assert writes[2].0 !in d.writeFailures;
      assert writes[1..][1..] == [writes[2]];
      assert writes[1..][1..][1..] == [];
    }
    WriteAllError(d, writes);
    WriteAllStores(d, writes, 0);
    WriteAllStores(d, writes, 1);
    WriteAllStores(d, writes, 2);
  }

  /** A second run after a successful generation finds the certificate and
      changes nothing, whatever the authority would now deliver. */
  lemma PopulateCertsTwice(certDir: string, d: Disk, tca: TinyCA, pair: CertKeyPair, ca2: Result<TinyCA>)
    requires DiskStat(d, Join(certDir, CertName)).NotExist?
    requires tca.servingCert == Ok(ServingCert(Ok(pair)))
    requires forall name :: name in [CACertName, CertName, KeyName] ==> Join(certDir, name) !in d.writeFailures
    ensures var r := PopulateCerts(certDir, d, Ok(tca));
      PopulateCerts(certDir, r.0, ca2) == (r.0, None)
  {
    PopulateCertsStores(certDir, d, tca, pair);
  }

  // ---------------------------------------------------------------------------
  // Configuration

  /** The API server's exported settings: the URL it serves on, the secure
      port, the binary path, the argument templates, the certificate
      directory, the etcd URL and the start and stop timeouts (nanoseconds). */
  datatype Config = Config(
    url: Option<URL>,
    securePort: int,
    path: string,
    args: seq<string>,
    certDir: string,
    etcdURL: Option<URL>,
    startTimeout: int,
    stopTimeout: int)

  /** The flags that are always part of the arguments, whatever the
      templates say. */
  const MinimalDefaults: map<string, seq<string>> := map["service-cluster-ip-range" := ["10.0.0.0/24"]]

  /** The flags every configuration gets. */
  const FixedDefaults: map<string, seq<string>> := map[
    "advertise-address" := ["127.0.0.1"],
    "service-cluster-ip-range" := ["10.0.0.0/24"],
    "allow-privileged" := ["true"],
    "disable-admission-plugins" := ["ServiceAccount"]]

  /** The default flags for a configuration: the fixed ones, plus the etcd
      servers, the certificate directory and the insecure port and bind
      address when those are known. */
  function DefaultArgs(c: Config): (m: map<string, seq<string>>)
    ensures forall k :: k in FixedDefaults ==> k in m && m[k] == FixedDefaults[k]
    ensures m.Keys <= DefaultFlags
  {
    var m1 := FixedDefaults;
    var m2 := if c.etcdURL.Some? then m1["etcd-servers" := [c.etcdURL.value.String()]] else m1;
    var m3 := if c.certDir != "" then m2["cert-dir" := [c.certDir]] else m2;
    if c.url.Some?
    then m3["insecure-port" := [c.url.value.Port()]]["insecure-bind-address" := [c.url.value.Hostname()]]
    else m3
  }

  /** The etcd servers are a default exactly when the etcd URL is known, and
      the certificate directory exactly when it is not empty. */
  lemma DefaultArgsEtcdAndCertDir(c: Config)
    ensures "etcd-servers" in DefaultArgs(c) <==> c.etcdURL.Some?
    ensures c.etcdURL.Some? ==> DefaultArgs(c)["etcd-servers"] == [c.etcdURL.value.String()]
    ensures "cert-dir" in DefaultArgs(c) <==> c.certDir != ""
    ensures c.certDir != "" ==> DefaultArgs(c)["cert-dir"] == [c.certDir]
  {
  }

  /** The insecure port and bind address are defaults exactly when the URL is
      known, and are its port and host name. */
  lemma DefaultArgsURL(c: Config)
    ensures "insecure-port" in DefaultArgs(c) <==> c.url.Some?
    ensures "insecure-bind-address" in DefaultArgs(c) <==> c.url.Some?
    ensures c.url.Some? ==> DefaultArgs(c)["insecure-port"] == [c.url.value.Port()]
    ensures c.url.Some? ==> DefaultArgs(c)["insecure-bind-address"] == [c.url.value.Hostname()]
  {
  }

  /** The minimal defaults are among the defaults, with the same value. */
  lemma MinimalDefaultsAreDefaults(c: Config)
    ensures forall k :: k in MinimalDefaults ==> k in DefaultArgs(c) && DefaultArgs(c)[k] == MinimalDefaults[k]
  {
  }

  /** The flags a default can be given for. */
  const DefaultFlags: set<string> := FixedDefaults.Keys + {"etcd-servers", "cert-dir", "insecure-port", "insecure-bind-address"}

  // ---------------------------------------------------------------------------
  // Outside collaborators

  /** What the port allocator answers: a free port and the host it is free
      on, or an error. */
  datatype Suggestion = Suggestion(port: int, host: string, err: Option<Error>)

  /** What the argument-template expansion receives: the templates, the
      configured arguments, the configuration to render the templates with,
      the defaults and the minimal defaults. */
  datatype TemplateInput = TemplateInput(
    templates: seq<string>,
    configured: map<string, seq<string>>,
    data: Config,
    defaults: map<string, seq<string>>,
    minimalDefaults: map<string, seq<string>>)

  /** The expanded argument list, the flags of the configured argument set
      after the templates and defaults were appended to it, and the expansion
      error, all three kept. */
  datatype TemplateOutcome = TemplateOutcome(args: seq<string>, configured: map<string, seq<string>>, err: Option<Error>)

  /** The answers of the collaborators during one set-up: process
      initialisation, the two port suggestions (secure port, then URL), the
      certificate authority, and the template expansion. */
  datatype Environment = Environment(
    init: Process.Initializer,
    securePortSuggestion: Suggestion,
    urlSuggestion: Suggestion,
    ca: Result<TinyCA>,
    template: TemplateInput -> TemplateOutcome)

  const ProcessName := "kube-apiserver"
  const HealthPath := "/healthz"
  const EtcdURLMissing := Error("expected EtcdURL to be configured")

  // ---------------------------------------------------------------------------
  // Set-up, as a function of the configuration and the environment

  /** A zero secure port is replaced by the suggested one; the suggestion's
      port is taken even when the allocator reports an error, which is then
      returned. */
  function DefaultSecurePort(c: Config, s: Suggestion): (r: (Config, Option<Error>))
    ensures c.securePort != 0 ==> r == (c, None)
    ensures c.securePort == 0 ==> r == (c.(securePort := s.port), s.err)
  {
    if c.securePort == 0 then (c.(securePort := s.port), s.err) else (c, None)
  }

  /** The URL the allocator's suggestion gives: plain HTTP on `host:port`. */
  function SuggestedURL(s: Suggestion): (u: URL)
    ensures u.scheme == "http" && u.path == ""
    ensures s.port >= 0 ==> u.Port() == Itoa(s.port) && DecimalValue(u.Port()) == s.port
    ensures s.port >= 0 && (':' in s.host || !Bracketed(s.host)) ==> u.Hostname() == s.host
  {
    var u := URL("http", JoinHostPort(s.host, Itoa(s.port)), "");
    if s.port < 0 then u
    else if ':' in s.host || !Bracketed(s.host) then
      HostPortRoundTrip("http", s.host, s.port, ""); u
    else
      SplitAtPort(s.host, Itoa(s.port)); u
  }

  /** A missing URL is replaced by the suggested one; on an allocator error the
      URL stays missing and the error is returned. */
  function DefaultURL(c: Config, s: Suggestion): (r: (Config, Option<Error>))
    ensures c.url.Some? ==> r == (c, None)
    ensures c.url.None? && s.err.Some? ==> r == (c, s.err)
    ensures c.url.None? && s.err.None? ==> r == (c.(url := Some(SuggestedURL(s))), None)
    ensures r.1.None? ==> r.0.url.Some?
  {
    if c.url.Some? then (c, None)
    else if s.err.Some? then (c, s.err)
    else (c.(url := Some(SuggestedURL(s))), None)
  }

  /** How far set-up got, what it left behind (the configuration, the
      process state if one was created, the disk, whether the configured
      arguments were asked for, the flags of the configured argument set if
      one exists) and the error it returns. */
  datatype SetupResult = SetupResult(
    config: Config,
    process: Option<Process.Snapshot>,
    disk: Disk,
    configured: bool,
    arguments: Option<map<string, seq<string>>>,
    err: Option<Error>)

  /** The process settings taken from a configuration. */
  function SettingsOf(c: Config): Process.Settings
  {
    Process.Settings(c.certDir, c.path, c.startTimeout, c.stopTimeout)
  }

  /** The configuration after the process settings are copied back. */
  function WithSettings(c: Config, s: Process.Settings): (r: Config)
    ensures SettingsOf(r) == s
  {
    c.(certDir := s.dir, path := s.path, startTimeout := s.startTimeout, stopTimeout := s.stopTimeout)
  }

  /** Defaulting of the secure port, then of the URL; the first error
      stops it. */
  function DefaultNetwork(c: Config, env: Environment): (r: (Config, Option<Error>))
    ensures r.1.None? ==> r.0.url.Some?
  {
    var (c1, portErr) := DefaultSecurePort(c, env.securePortSuggestion);
    if portErr.Some? then (c1, portErr) else DefaultURL(c1, env.urlSuggestion)
  }

  /** What the template expansion is given for a configuration and the
      configured arguments (an absent argument set counts as empty). */
  function TemplateInputFor(c: Config, configured: Option<map<string, seq<string>>>): TemplateInput
  {
    TemplateInput(c.args, if configured.Some? then configured.value else map[], c, DefaultArgs(c), MinimalDefaults)
  }

  /** The last steps: the certificates, then the argument templates. */
  function ExpandArgs(c: Config, configured: Option<map<string, seq<string>>>, d: Disk,
                      env: Environment, ps: Process.Snapshot): SetupResult
  {
    var (d2, certErr) := PopulateCerts(c.certDir, d, env.ca);
    if certErr.Some? then SetupResult(c, Some(ps), d2, false, configured, certErr)
    else
      var t := env.template(TemplateInputFor(c, configured));
      SetupResult(c, Some(ps.(args := t.args)), d2, true, Some(t.configured), t.err)
  }

  /** The steps after defaulting: the health check and copying back the
      process settings, then the certificates and the arguments. */
  function CompleteSetup(c: Config, configured: Option<map<string, seq<string>>>, d: Disk,
                         env: Environment, ps: Process.Snapshot): SetupResult
    requires c.url.Some?
  {
    ExpandArgs(WithSettings(c, ps.settings), configured, d, env,
               ps.(healthCheck := Process.HealthCheck(c.url.value, HealthPath)))
  }

  /** The steps after a successful initialisation of the process state. */
  function SetupAfterInit(c: Config, configured: Option<map<string, seq<string>>>, d: Disk,
                          env: Environment, settings: Process.Settings): SetupResult
  {
    var ps := Process.Snapshot(settings, Process.ZeroHealthCheck, []);
    var (c2, netErr) := DefaultNetwork(c, env);
    if netErr.Some? then SetupResult(c2, Some(ps), d, false, configured, netErr)
    else CompleteSetup(c2, configured, d, env, ps)
  }

  /** Set-up of the process state, from the configuration, the configured
      arguments (if any), the disk and the environment. */
  function Setup(c: Config, configured: Option<map<string, seq<string>>>, d: Disk, env: Environment): SetupResult
  {
    if c.etcdURL.None? then SetupResult(c, None, d, false, configured, Some(EtcdURLMissing))
    else
      var init := env.init(ProcessName, SettingsOf(c));
      if init.Err? then SetupResult(c, Some(Process.Snapshot(SettingsOf(c), Process.ZeroHealthCheck, [])), d, false, configured, Some(init.error))
      else SetupAfterInit(c, configured, d, env, init.value)
  }

  /** Every collaborator up to the certificates answers without error. */
  predicate DefaultingSucceeds(c: Config, env: Environment)
  {
    && c.etcdURL.Some?
    && env.init(ProcessName, SettingsOf(c)).Ok?
    && (c.securePort == 0 ==> env.securePortSuggestion.err.None?)
    && (c.url.None? ==> env.urlSuggestion.err.None?)
  }

  /** Without an etcd URL set-up fails at once and changes nothing; with
      one, a process state is always created, whatever fails later. */
  lemma SetupRequiresEtcdURL(c: Config, configured: Option<map<string, seq<string>>>, d: Disk, env: Environment)
    ensures c.etcdURL.None? ==> Setup(c, configured, d, env) == SetupResult(c, None, d, false, configured, Some(EtcdURLMissing))
    ensures Setup(c, configured, d, env).process.Some? <==> c.etcdURL.Some?
  {
  }

  /** A non-zero secure port and a given URL are never replaced, and neither
      the etcd URL nor the argument templates ever change; the configured
      arguments change only when the templates are expanded. */
  lemma SetupKeepsGivenSettings(c: Config, configured: Option<map<string, seq<string>>>, d: Disk, env: Environment)
    ensures var r := Setup(c, configured, d, env);
      && (c.securePort != 0 ==> r.config.securePort == c.securePort)
      && (c.url.Some? ==> r.config.url == c.url)
      && r.config.etcdURL == c.etcdURL
      && r.config.args == c.args
      && (!r.configured ==> r.arguments == configured)
  {
    if c.etcdURL.Some? && env.init(ProcessName, SettingsOf(c)).Ok? {
      var settings := env.init(ProcessName, SettingsOf(c)).value;
      var (c2, netErr) := DefaultNetwork(c, env);
      if netErr.None? {
        var ps := Process.Snapshot(settings, Process.ZeroHealthCheck, []);
        ExpandArgsKeeps(WithSettings(c2, settings), configured, d, env,
                        ps.(healthCheck := Process.HealthCheck(c2.url.value, HealthPath)));
      }
    }
  }

  /** Once the process state is initialised, a zero secure port becomes the
      suggested port even when the allocator fails. */
  lemma SetupDefaultsSecurePort(c: Config, configured: Option<map<string, seq<string>>>, d: Disk, env: Environment)
    requires c.etcdURL.Some? && env.init(ProcessName, SettingsOf(c)).Ok?
    requires c.securePort == 0
    ensures Setup(c, configured, d, env).config.securePort == env.securePortSuggestion.port
    ensures env.securePortSuggestion.err.Some? ==>
      Setup(c, configured, d, env).err == env.securePortSuggestion.err
  {
  }

  /** The certificates and the argument expansion change neither the
      configuration nor the process settings and health check; the disk is
      what populating the certificates leaves, and a certificate error stops
      before the expansion. */
  lemma ExpandArgsKeeps(c: Config, configured: Option<map<string, seq<string>>>, d: Disk,
                        env: Environment, ps: Process.Snapshot)
    ensures var r := ExpandArgs(c, configured, d, env, ps);
      && r.config == c
      && r.process.Some?
      && r.process.value.settings == ps.settings
      && r.process.value.healthCheck == ps.healthCheck
      && r.disk == PopulateCerts(c.certDir, d, env.ca).0
      && (PopulateCerts(c.certDir, d, env.ca).1.Some? ==>
            && r.err == PopulateCerts(c.certDir, d, env.ca).1 && !r.configured
            && r.process.value == ps && r.arguments == configured)
      && (PopulateCerts(c.certDir, d, env.ca).1.None? ==>
            && r.configured
            && r.process.value.args == env.template(TemplateInputFor(c, configured)).args
            && r.arguments == Some(env.template(TemplateInputFor(c, configured)).configured)
            && r.err == env.template(TemplateInputFor(c, configured)).err)
  {
  }

  /** When defaulting succeeds, set-up is the completion from the defaulted
      configuration and the freshly initialised process state. */
  lemma SetupStages(c: Config, configured: Option<map<string, seq<string>>>, d: Disk, env: Environment)
    requires DefaultingSucceeds(c, env)
    ensures DefaultNetwork(c, env).1.None?
    ensures Setup(c, configured, d, env)
         == CompleteSetup(DefaultNetwork(c, env).0, configured, d, env,
              Process.Snapshot(env.init(ProcessName, SettingsOf(c)).value, Process.ZeroHealthCheck, []))
  {
  }

  /** A missing URL becomes plain HTTP on the suggested host and port, read
      back by `Hostname` and `Port` as the host and the decimal port. */
  lemma SetupDefaultsURL(c: Config, configured: Option<map<string, seq<string>>>, d: Disk, env: Environment)
    requires DefaultingSucceeds(c, env) && c.url.None?
    requires env.urlSuggestion.port >= 0
    requires ':' in env.urlSuggestion.host || !Bracketed(env.urlSuggestion.host)
    ensures var r := Setup(c, configured, d, env);
      && r.config.url == Some(SuggestedURL(env.urlSuggestion))
      && r.config.url.value.scheme == "http"
      && r.config.url.value.Hostname() == env.urlSuggestion.host
      && r.config.url.value.Port() == Itoa(env.urlSuggestion.port)
      && DecimalValue(r.config.url.value.Port()) == env.urlSuggestion.port
  {
    SetupAfterDefaulting(c, configured, d, env);
    assert DefaultNetwork(c, env).0.url == Some(SuggestedURL(env.urlSuggestion));
    HostPortRoundTrip("http", env.urlSuggestion.host, env.urlSuggestion.port, "");
  }

  /** After defaulting, the URL is the defaulted one and the health check
      targets it at `/healthz`; the directory, binary path and timeouts are
      those the process state was initialised with; and the certificates are
      populated in that directory, an error there stopping set-up before the
      arguments are expanded. */
  lemma SetupAfterDefaulting(c: Config, configured: Option<map<string, seq<string>>>, d: Disk, env: Environment)
    requires DefaultingSucceeds(c, env)
    ensures var r := Setup(c, configured, d, env);
      var settings := env.init(ProcessName, SettingsOf(c)).value;
      && r.config.url == DefaultNetwork(c, env).0.url
      && r.config.url.Some?
      && r.process.Some?
      && r.process.value.healthCheck == Process.HealthCheck(r.config.url.value, HealthPath)
      && r.process.value.settings == settings
      && SettingsOf(r.config) == settings
      && r.disk == PopulateCerts(settings.dir, d, env.ca).0
      && (PopulateCerts(settings.dir, d, env.ca).1.Some? ==>
            r.err == PopulateCerts(settings.dir, d, env.ca).1 && !r.configured && r.arguments == configured)
  {
    SetupStages(c, configured, d, env);
    var c2 := DefaultNetwork(c, env).0;
    var settings := env.init(ProcessName, SettingsOf(c)).value;
    var ps := Process.Snapshot(settings, Process.ZeroHealthCheck, []);
    ExpandArgsKeeps(WithSettings(c2, settings), configured, d, env,
                    ps.(healthCheck := Process.HealthCheck(c2.url.value, HealthPath)));
  }

  /** When the certificates are in place, the final arguments are the
      expansion of the templates with the configured arguments (empty when
      none exist yet), the defaults of the defaulted configuration and the
      minimal defaults; they are kept even when the expansion reports an
      error, which is returned, and the configured argument set afterwards
      holds what the expansion appended to it. The defaults then name the
      etcd servers and the URL's port. */
  lemma SetupExpandsTemplates(c: Config, configured: Option<map<string, seq<string>>>, d: Disk, env: Environment)
    requires DefaultingSucceeds(c, env)
    requires PopulateCerts(env.init(ProcessName, SettingsOf(c)).value.dir, d, env.ca).1.None?
    ensures var r := Setup(c, configured, d, env);
      var input := TemplateInputFor(r.config, configured);
      && r.configured
      && r.process.Some?
      && r.process.value.args == env.template(input).args
      && r.err == env.template(input).err
      && r.arguments == Some(env.template(input).configured)
      && input.configured == (if configured.Some? then configured.value else map[])
      && input.templates == c.args
      && "etcd-servers" in input.defaults
      && r.config.url.Some?
      && input.defaults["insecure-port"] == [r.config.url.value.Port()]
  {
    SetupStages(c, configured, d, env);
    SetupAfterDefaulting(c, configured, d, env);
    var c2 := DefaultNetwork(c, env).0;
    var settings := env.init(ProcessName, SettingsOf(c)).value;
    var ps := Process.Snapshot(settings, Process.ZeroHealthCheck, []);
    ExpandArgsKeeps(WithSettings(c2, settings), configured, d, env,
                    ps.(healthCheck := Process.HealthCheck(c2.url.value, HealthPath)));
    var r := Setup(c, configured, d, env);
    DefaultArgsEtcdAndCertDir(r.config);
    DefaultArgsURL(r.config);
  }

  // ---------------------------------------------------------------------------
  // The API server object

  class APIServer {
    var url: Option<URL>
    var securePort: int
    var path: string
    /** The argument templates. */
    var args: seq<string>
    var certDir: string
    var etcdURL: Option<URL>
    var startTimeout: int
    var stopTimeout: int
    var processState: Process.State?
    /** The configured arguments, created on first use. */
    var configuredArgs: Process.Arguments?

    /** The exported settings as a value. */
    function Fields(): Config
      reads this
    {
      Config(url, securePort, path, args, certDir, etcdURL, startTimeout, stopTimeout)
    }

    /** The configured arguments' flags, if the argument set exists. */
    function ConfiguredValues(): Option<map<string, seq<string>>>
      reads this, configuredArgs
    {
      if configuredArgs == null then None else Some(configuredArgs.values)
    }

    /** A server with the given settings, never started or configured. */
    constructor (c: Config)
      ensures Fields() == c && processState == null && configuredArgs == null
    {
      url := c.url;
      securePort := c.securePort;
      path := c.path;
      args := c.args;
      certDir := c.certDir;
      etcdURL := c.etcdURL;
      startTimeout := c.startTimeout;
      stopTimeout := c.stopTimeout;
      processState := null;
      configuredArgs := null;
    }

    /** The configured arguments, created empty on first use; later calls
        return the same object. */
    method Configure() returns (a: Process.Arguments)
      modifies this
      ensures old(configuredArgs) != null ==> a == old(configuredArgs)
      ensures old(configuredArgs) == null ==> fresh(a) && a.values == map[]
      ensures configuredArgs == a
      ensures Fields() == old(Fields()) && processState == old(processState)
    {
      if configuredArgs == null {
        configuredArgs := new Process.Arguments.Empty();
      }
      a := configuredArgs;
    }

    /** Writes serving certificates into the certificate directory unless
        `apiserver.crt` is already there (see `PopulateCerts`). */
    method PopulateAPIServerCerts(fs: FileSystem, ca: Result<TinyCA>) returns (err: Option<Error>)
      modifies fs
      ensures (fs.disk, err) == PopulateCerts(certDir, old(fs.disk), ca)
    {
      var st := fs.Stat(Join(certDir, CertName));
      if st.Exists? {
        return None;
      } else if st.StatFailed? {
        return Some(st.err);
      }
      if ca.Err? {
        return Some(ca.error);
      }
      var tca := ca.value;
      if tca.servingCert.Err? {
        return Some(tca.servingCert.error);
      }
      var certs := tca.servingCert.value;
      if certs.asBytes.Err? {
        return Some(certs.asBytes.error);
      }
      var pair := certs.asBytes.value;
      WriteAllThree(fs.disk, CertWrites(certDir, tca, pair));
      err := fs.WriteFile(Join(certDir, CACertName), tca.caCert, CertFileMode);
      if err.Some? {
        return;
      }
      err := fs.WriteFile(Join(certDir, CertName), pair.cert, CertFileMode);
      if err.Some? {
        return;
      }
      err := fs.WriteFile(Join(certDir, KeyName), pair.key, CertFileMode);
    }

    /** Defaults the secure port and the URL (see `DefaultNetwork`). */
    method DefaultPortAndURL(env: Environment) returns (err: Option<Error>)
      modifies this
      ensures (Fields(), err) == DefaultNetwork(old(Fields()), env)
      ensures processState == old(processState) && configuredArgs == old(configuredArgs)
    {
      err := None;
      if securePort == 0 {
        securePort := env.securePortSuggestion.port;
        if env.securePortSuggestion.err.Some? {
          return env.securePortSuggestion.err;
        }
      }
      if url.None? {
        var s := env.urlSuggestion;
        if s.err.Some? {
          return s.err;
        }
        url := Some(URL("http", JoinHostPort(s.host, Itoa(s.port)), ""));
      }
    }

    /** Populates the certificates, then expands the argument templates
        into the process state's arguments, appending to the configured
        argument set (see `ExpandArgs`). */
    method ExpandArguments(ps: Process.State, env: Environment, fs: FileSystem) returns (err: Option<Error>)
      modifies this, ps, fs, configuredArgs
      ensures var r := ExpandArgs(old(Fields()), old(ConfiguredValues()), old(fs.disk), env, old(ps.View()));
        && Fields() == r.config && fs.disk == r.disk && err == r.err
        && ps.View() == r.process.value
        && ps.starts == old(ps.starts) && ps.stops == old(ps.stops)
        && processState == old(processState)
        && (!r.configured ==> configuredArgs == old(configuredArgs))
        && (r.configured && old(configuredArgs) != null ==> configuredArgs == old(configuredArgs))
        && (r.configured && old(configuredArgs) == null ==> configuredArgs != null && fresh(configuredArgs))
        && ConfiguredValues() == r.arguments
    {
      err := PopulateAPIServerCerts(fs, env.ca);
      if err.Some? {
        return;
      }
      var configured := Configure();
      var t := env.template(TemplateInput(args, configured.values, Fields(), DefaultArgs(Fields()), MinimalDefaults));
      ps.args := t.args;
      configured.values := t.configured;
      err := t.err;
    }

    /** Points the health check at the URL, copies the process settings back,
        populates the certificates and expands the argument templates (see
        `CompleteSetup`). */
    method FinishSetup(ps: Process.State, env: Environment, fs: FileSystem) returns (err: Option<Error>)
      requires url.Some?
      modifies this, ps, fs, configuredArgs
      ensures var r := CompleteSetup(old(Fields()), old(ConfiguredValues()), old(fs.disk), env, old(ps.View()));
        && Fields() == r.config && fs.disk == r.disk && err == r.err
        && ps.View() == r.process.value
        && ps.starts == old(ps.starts) && ps.stops == old(ps.stops)
        && processState == old(processState)
        && (!r.configured ==> configuredArgs == old(configuredArgs))
        && (r.configured && old(configuredArgs) != null ==> configuredArgs == old(configuredArgs))
        && (r.configured && old(configuredArgs) == null ==> configuredArgs != null && fresh(configuredArgs))
        && ConfiguredValues() == r.arguments
    {
      ApplyProcessSettings(ps);
      err := ExpandArguments(ps, env, fs);
    }

    /** Points the health check at the URL and copies the process settings
        back into the server's fields. */
    method ApplyProcessSettings(ps: Process.State)
      requires url.Some?
      modifies this, ps
      ensures Fields() == WithSettings(old(Fields()), old(ps.settings))
      ensures ps.View() == old(ps.View()).(healthCheck := Process.HealthCheck(old(url).value, HealthPath))
      ensures ps.starts == old(ps.starts) && ps.stops == old(ps.stops)
      ensures processState == old(processState) && configuredArgs == old(configuredArgs)
    {
      ps.healthCheck := Process.HealthCheck(url.value, HealthPath);
      certDir := ps.settings.dir;
      path := ps.settings.path;
      startTimeout := ps.settings.startTimeout;
      stopTimeout := ps.settings.stopTimeout;
    }

    /** Creates and initialises the process state and defaults the
        configuration from it (see `Setup`); stops at the first error,
        keeping whatever was assigned before it. */
    method SetProcessState(env: Environment, fs: FileSystem) returns (err: Option<Error>)
      modifies this, fs, configuredArgs
      ensures var r := Setup(old(Fields()), old(ConfiguredValues()), old(fs.disk), env);
        && Fields() == r.config && fs.disk == r.disk && err == r.err
        && (r.process.None? ==> processState == old(processState))
        && (r.process.Some? ==>
              && processState != null && fresh(processState)
              && processState.View() == r.process.value
              && processState.starts == 0 && processState.stops == 0)
        && (!r.configured ==> configuredArgs == old(configuredArgs))
        && (r.configured && old(configuredArgs) != null ==> configuredArgs == old(configuredArgs))
        && (r.configured && old(configuredArgs) == null ==> configuredArgs != null && fresh(configuredArgs))
        && ConfiguredValues() == r.arguments
    {
      if etcdURL.None? {
        return Some(EtcdURLMissing);
      }
      var ps := new Process.State(Process.Settings(certDir, path, startTimeout, stopTimeout));
      processState := ps;
      err := ps.Init(ProcessName, env.init);
      if err.Some? {
        return;
      }
      err := DefaultPortAndURL(env);
      if err.Some? {
        return;
      }
      err := FinishSetup(ps, env, fs);
    }

    /** Sets the process state up on first use, then starts the process. A
        process state left behind by a failed set-up is reused as it is. */
    method Start(env: Environment, fs: FileSystem, startOutcome: Option<Error>) returns (err: Option<Error>)
      modifies this, fs, processState, configuredArgs
      ensures old(processState) != null ==>
        && processState == old(processState) && err == startOutcome
        && Fields() == old(Fields()) && configuredArgs == old(configuredArgs) && fs.disk == old(fs.disk)
        && ConfiguredValues() == old(ConfiguredValues())
        && processState.View() == old(processState.View())
        && processState.starts == old(processState.starts) + 1
        && processState.stops == old(processState.stops)
      ensures old(processState) == null ==>
        var r := Setup(old(Fields()), old(ConfiguredValues()), old(fs.disk), env);
        && Fields() == r.config && fs.disk == r.disk
        && (r.process.None? ==> processState == null)
        && (r.process.Some? ==>
              && processState != null && fresh(processState) && processState.View() == r.process.value
              && processState.stops == 0)
        && (r.err.Some? ==> err == r.err && (processState != null ==> processState.starts == 0))
        && (r.err.None? ==> err == startOutcome && processState != null && processState.starts == 1)
        && (!r.configured ==> configuredArgs == old(configuredArgs))
        && (r.configured && old(configuredArgs) != null ==> configuredArgs == old(configuredArgs))
        && (r.configured && old(configuredArgs) == null ==> configuredArgs != null && fresh(configuredArgs))
        && ConfiguredValues() == r.arguments
    {
      if processState == null {
        err := SetProcessState(env, fs);
        if err.Some? {
          return;
        }
      }
      err := processState.Start(startOutcome);
    }

    /** Stops the process if a process state exists; otherwise does nothing. */
    method Stop(stopOutcome: Option<Error>) returns (err: Option<Error>)
      modifies processState
      ensures processState == null ==> err == None
      ensures processState != null ==>
        && err == stopOutcome
        && processState.View() == old(processState.View())
        && processState.stops == old(processState.stops) + 1
        && processState.starts == old(processState.starts)
    {
      if processState != null {
        err := processState.Stop(stopOutcome);
        return;
      }
      err := None;
    }
  }
}
