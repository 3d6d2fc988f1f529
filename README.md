# Test-environment helpers of controller-runtime, modelled in Dafny

This project models four small pieces of controller-runtime's handler and
test-environment code and proves what each of them promises.

- **Event fan-out** (`Handler`, `handler.dfy`). `EnqueueRequestsFromMapper` maps the object or objects of an event to reconcile requests. It adds every request to a work queue in the mapper's order. For update events, an `UpdateBehavior` chooses the old object, the new one, or both. The queue is a class whose only state is the sequence of items added to it.
- **Envtest helpers** (`EnvtestHelper`, `envtest_helper.dfy`). It covers four operations:
  - `mergePaths`: the duplicate-free union of two path lists.
  - `mergeCRDs`: merges CRD lists by name, with the last object of each name winning.
  - `runtimeCRDListToUnstructured`: converts objects and skips those that fail.
  - `fillAllTypeMeta`: fills the empty parts of each object's group, version and kind in place, and stops at the first object whose type cannot be detected.

  The scheme is abstract. Conversion is a partial function, and each object carries the type detection gives for it.
- **Kine argument defaulting** (`Kine`, `kine.dfy`). An empty argument list is replaced by the two default templates. A non-empty list passes through unchanged.
- **The test API server** (`ControlPlane`, `controlplane_apiserver.dfy`). It covers:
  - lazy `Configure`;
  - `Start`, which sets up the process state only once;
  - `setProcessState`: it requires an etcd URL, defaults the secure port and the URL from a port allocator, points the health check at the URL, and copies the process settings back;
  - `defaultArgs`;
  - `populateAPIServerCerts`, which checks whether the certificate exists before generating one;
  - `Stop`.

  The set-up is a class with the server's fields and an in-place file system. It is proved against the pure function `Setup` and its lemmas.

The server's collaborators are modelled from outside. `Url` (`url.dfy`) holds the parts of Go's `net/url`, `net.JoinHostPort` and `strconv.Itoa` that the server relies on. `Process` (`process.dfy`) holds the process state, whose initialisation, start and stop are supplied as answers. The `Environment` datatype supplies the rest: the port allocator, the certificate authority and the argument-template expansion. `Results` (`results.dfy`) holds `Option`, `Result` and `Error`.

Where a comment in the source and its code disagree, the model follows the code. The comment on `GetKineStartMessage` speaks of insecure clients, but the function returns one constant.

## Model

| member | source | states |
|---|---|---|
| Handler.Mapper.Map | pkg/handler/enqueue_mapped.go:41-43 | a mapper built from a function maps as that function; its promises are stated by `EnqueueRequestsFromMapFunc` (the mapper maps as `fn`) and `MapAndEnqueue` (every request it returns is enqueued, in order) |
| Handler.EnqueueRequestsFromMapper.constructor | pkg/handler/enqueue_mapped.go:76-81 | the handler holds the given mapper and update behaviour |
| Handler.EnqueueRequestsFromMapper.EnqueueRequestsFromMapFunc | pkg/handler/enqueue_mapped.go:41-60 | the handler built from a function has `MapFunc(fn)` as mapper, which maps every object exactly as `fn` does, and it maps both objects of an update |
| Handler.EnqueueRequestsFromMapper.MapAndEnqueue | pkg/handler/enqueue_mapped.go:111-115 | the queue afterwards is what it held before, followed by exactly the mapper's requests in the mapper's order |
| Handler.EnqueueRequestsFromMapper.Create | pkg/handler/enqueue_mapped.go:84-86 | appends exactly the requests for the event's object; earlier items are kept |
| Handler.EnqueueRequestsFromMapper.Update | pkg/handler/enqueue_mapped.go:89-99 | with old-and-new, appends the requests for the old object and then those for the new one, duplicates kept; with old only or new only, appends that object's requests; with any other value, leaves the queue unchanged |
| Handler.EnqueueRequestsFromMapper.Delete | pkg/handler/enqueue_mapped.go:102-104 | appends exactly the requests for the event's object |
| Handler.EnqueueRequestsFromMapper.Generic | pkg/handler/enqueue_mapped.go:107-109 | appends exactly the requests for the event's object |
| Handler.EnqueueRequestsFromMapper.InjectFunc | pkg/handler/enqueue_mapped.go:118-123 | a missing injection function succeeds without an error; otherwise the result is exactly what the function returns for the mapper |
| Kine.DoKineArgDefaulting | pkg/internal/testing/integration/internal/kine.go:12-18 | a non-empty list is returned unchanged, an empty one becomes the default list, and the result is never empty |
| Kine.DoKineArgDefaultingIdempotent | pkg/internal/testing/integration/internal/kine.go:12-18 | defaulting twice gives the same list as defaulting once |
| Kine.KineDefaultArgsShape | pkg/internal/testing/integration/internal/kine.go:5-8 | the default list has two entries: the `--listen-address=` template first, then the `--endpoint=` template |
| Kine.GetKineStartMessage | pkg/internal/testing/integration/internal/kine.go:22-24 | the message is the constant `Kine listening on `, whatever the listener |
| EnvtestHelper.MergePaths | pkg/envtest/helper.go:27-42 | a path is in the result iff it is in either input; no path occurs twice; the length is the number of distinct paths of both inputs |
| EnvtestHelper.KeysToSlice | pkg/envtest/helper.go:35-41 | the slice lists every key of the set exactly once and has the set's size |
| EnvtestHelper.Converted | pkg/envtest/helper.go:63-74 | converting never yields more objects than it is given |
| EnvtestHelper.ConvertedMembers | pkg/envtest/helper.go:63-74 | every result comes from an input object that converts, and every input object that converts is represented |
| EnvtestHelper.ConvertedAppend | pkg/envtest/helper.go:64-73 | converting a concatenation converts each part in order |
| EnvtestHelper.ConvertedAll | pkg/envtest/helper.go:64-73 | when every object converts, nothing is dropped and position `i` holds the conversion of input `i` |
| EnvtestHelper.RuntimeCRDListToUnstructured | pkg/envtest/helper.go:63-74 | the result is exactly the converted objects in input order, skipping the ones that fail, without an error |
| EnvtestHelper.ByName | pkg/envtest/helper.go:47-53 | every stored object is stored under its own name and comes from the list |
| EnvtestHelper.ByNameKeys | pkg/envtest/helper.go:47-53 | the names stored are exactly the names of the listed objects |
| EnvtestHelper.ByNameLastWins | pkg/envtest/helper.go:47-53 | the last object of a given name is the one stored for it |
| EnvtestHelper.ByNameAppend | pkg/envtest/helper.go:47-53 | storing a concatenation by name is the union of the two stores, the second winning on shared names |
| EnvtestHelper.MergedByNameUnion | pkg/envtest/helper.go:47-53 | the merged CRDs are those of the converted `s1`, overridden by those of the converted `s2` |
| EnvtestHelper.PutByName | pkg/envtest/helper.go:48-53 | the map afterwards is the old map overridden by the list's objects keyed by name |
| EnvtestHelper.ValuesToSlice | pkg/envtest/helper.go:54-60 | the slice lists each value of the map exactly once, one per name, and has the map's size |
| EnvtestHelper.MergeCRDs | pkg/envtest/helper.go:46-61 | exactly one object per distinct name among the objects that convert, each being the last of its name when scanning `s1` and then `s2` |
| EnvtestHelper.FillTypeMeta | pkg/envtest/helper.go:84-92 | each of kind, group and version keeps its current value when that is not empty and takes the detected one otherwise |
| EnvtestHelper.FillTypeMetaIdempotent | pkg/envtest/helper.go:84-92 | filling again from the same detection changes nothing |
| EnvtestHelper.FillTypeMetaBounds | pkg/envtest/helper.go:84-92 | fully set type information is left alone; empty type information becomes the detected one; a kind stays empty only if both sides are empty |
| EnvtestHelper.FirstUndetected | pkg/envtest/helper.go:77-82 | every object before the index has a detectable type, and the object at the index (if any) does not |
| EnvtestHelper.FillObjectAt | pkg/envtest/helper.go:78-93 | the object is filled from its original type information and its detected type; all other objects are as before |
| EnvtestHelper.FillAllTypeMeta | pkg/envtest/helper.go:76-96 | returns the detection error of the first undetectable object (none if all are detectable); the objects before it are filled from their old type information, the rest are untouched |
| Url.JoinHostPort | pkg/internal/testing/controlplane/apiserver.go:139 | a host containing a colon is bracketed before `:port` is appended |
| Url.NatToString | pkg/internal/testing/controlplane/apiserver.go:139 | a natural number is written as at least one decimal digit, and the digits denote the number |
| Url.Itoa | pkg/internal/testing/controlplane/apiserver.go:139 | a non-negative number is written as decimal digits that denote it; a negative one as a minus sign followed by the digits of its absolute value |
| Url.HostPortRoundTrip | pkg/internal/testing/controlplane/apiserver.go:137-140 | reading the host name and the port back from `JoinHostPort(host, Itoa(port))` gives the host and `Itoa(port)`, whose digits denote the port |
| Url.HostWithoutPort | pkg/internal/testing/controlplane/apiserver.go:186-187 | an authority without a port has itself as host name and an empty port |
| Url.URL.String | pkg/internal/testing/controlplane/apiserver.go:180 | the text starts with the scheme and `://` and is exactly as long as scheme, separator, host and path together |
| Url.SplitHostPort | pkg/internal/testing/controlplane/apiserver.go:186-187 | the port part is decimal digits only |
| Url.SplitHostPortSuffix | pkg/internal/testing/controlplane/apiserver.go:186-187 | a non-empty port is what follows the authority's last colon, at its end |
| Url.URL.Port | pkg/internal/testing/controlplane/apiserver.go:186 | the port part of `SplitHostPort`; its promises are stated by `SplitHostPort` (digits only), `SplitHostPortSuffix` (it ends the authority after a colon) and `HostPortRoundTrip` (a joined port reads back) |
| Url.URL.Hostname | pkg/internal/testing/controlplane/apiserver.go:187 | its promises are stated by `HostPortRoundTrip` (a joined host reads back unbracketed) and `HostWithoutPort` (an authority without a port is its own host) |
| Process.State.constructor | pkg/internal/testing/controlplane/apiserver.go:114-119 | a new process state holds the given directory, path and timeouts, with no health check, no arguments, and no starts or stops |
| Process.State.Init | pkg/internal/testing/controlplane/apiserver.go:120-122 | on success the settings are those initialisation chose; on failure its error is returned and the settings are as before |
| Process.State.Start | pkg/internal/testing/controlplane/apiserver.go:104 | returns what launching reported and counts one start; settings, health check and arguments are unchanged |
| Process.State.Stop | pkg/internal/testing/controlplane/apiserver.go:230 | returns what stopping reported and counts one stop; nothing else changes |
| ControlPlane.DiskStat | pkg/internal/testing/controlplane/apiserver.go:193-194 | a path exists iff its lookup does not fail and a file is there; it does not exist iff the lookup does not fail and no file is there |
| ControlPlane.ModeAfterWrite | pkg/internal/testing/controlplane/apiserver.go:213-221 | a file that already exists keeps its mode; a new file gets the requested mode |
| ControlPlane.DiskWrite | pkg/internal/testing/controlplane/apiserver.go:213-221 | a failing write changes nothing and returns its error; a successful one stores the data and records the path as written; a new file gets the requested mode and an existing one keeps its mode |
| ControlPlane.FileSystem.Stat | pkg/internal/testing/controlplane/apiserver.go:193 | answers as `DiskStat` on the current contents |
| ControlPlane.FileSystem.WriteFile | pkg/internal/testing/controlplane/apiserver.go:213-221 | the disk and the error afterwards are as `DiskWrite` gives |
| ControlPlane.Join | pkg/internal/testing/controlplane/apiserver.go:193 | the path ends with the file name |
| ControlPlane.JoinInjective | pkg/internal/testing/controlplane/apiserver.go:213-219 | distinct file names in one directory give distinct paths |
| ControlPlane.CertWrites | pkg/internal/testing/controlplane/apiserver.go:213-219 | three writes to three distinct paths, the serving certificate `apiserver.crt` second |
| ControlPlane.WriteAll | pkg/internal/testing/controlplane/apiserver.go:213-223 | writing never changes which paths fail |
| ControlPlane.WriteAllThree | pkg/internal/testing/controlplane/apiserver.go:213-223 | three writes happen one after the other, each only when the previous one succeeded |
| ControlPlane.Succeeding | pkg/internal/testing/controlplane/apiserver.go:213-221 | the writes before the index all succeed, and the write at the index (if any) fails |
| ControlPlane.WriteAllStep | pkg/internal/testing/controlplane/apiserver.go:213-221 | after a successful first write the rest proceed from the disk it leaves |
| ControlPlane.WriteAllWritten | pkg/internal/testing/controlplane/apiserver.go:213-223 | the paths written are, in order, those up to the first failing write; no later write happens and nothing is rolled back |
| ControlPlane.WriteAllError | pkg/internal/testing/controlplane/apiserver.go:213-223 | the error is that of the first failing write, and there is none when all writes succeed |
| ControlPlane.WriteAllStores | pkg/internal/testing/controlplane/apiserver.go:213-221 | a successful write that no later write overrides leaves its data in its file, with the file's earlier mode if it existed and mode 0640 if the writes created it |
| ControlPlane.WriteAllKeeps | pkg/internal/testing/controlplane/apiserver.go:213-221 | a file no write goes to is left as it was |
| ControlPlane.PopulateCerts | pkg/internal/testing/controlplane/apiserver.go:192-224 | reference definition of certificate population; its promises are stated by `PopulateCertsWithoutGenerating`, `PopulateCertsWrites`, `PopulateCertsStores` and `PopulateCertsTwice` |
| ControlPlane.PopulateCertsWithoutGenerating | pkg/internal/testing/controlplane/apiserver.go:193-196 | an existing `apiserver.crt` means no error and nothing written; a failed lookup returns its error and nothing is written |
| ControlPlane.PopulateCertsWrites | pkg/internal/testing/controlplane/apiserver.go:198-223 | on generation, `apiserver-ca.crt`, `apiserver.crt` and `apiserver.key` are written in that order up to the first failing write, whose error is returned |
| ControlPlane.PopulateCertsStores | pkg/internal/testing/controlplane/apiserver.go:198-223 | when all writes succeed there is no error and the three files hold the CA certificate, the certificate and the key; the missing certificate is created with mode 0640; the other two files get 0640 if new and otherwise keep their mode |
| ControlPlane.PopulateCertsTwice | pkg/internal/testing/controlplane/apiserver.go:193-196 | after a successful generation, a second run finds the certificate and changes nothing, whatever the authority answers |
| ControlPlane.DefaultArgs | pkg/internal/testing/controlplane/apiserver.go:168-190 | the four fixed flags are always present with their values, and no flag beyond the eight known ones is ever given |
| ControlPlane.DefaultArgsEtcdAndCertDir | pkg/internal/testing/controlplane/apiserver.go:179-184 | `etcd-servers` is present iff the etcd URL is set, with its text; `cert-dir` is present iff the directory is not empty, with its value |
| ControlPlane.DefaultArgsURL | pkg/internal/testing/controlplane/apiserver.go:185-188 | `insecure-port` and `insecure-bind-address` are present iff the URL is set, holding its port and host name |
| ControlPlane.MinimalDefaultsAreDefaults | pkg/internal/testing/controlplane/apiserver.go:161-171 | the minimal default `service-cluster-ip-range` is also among the defaults, with the same value |
| ControlPlane.DefaultSecurePort | pkg/internal/testing/controlplane/apiserver.go:125-130 | a non-zero port is kept; a zero port takes the suggested port, even when the allocator also reports an error, which is returned |
| ControlPlane.SuggestedURL | pkg/internal/testing/controlplane/apiserver.go:137-140 | the URL is plain `http` with no path; for a non-negative port its port reads back as the decimal suggestion, and its host name reads back as the suggested host unless that is a colon-free bracketed name |
| ControlPlane.DefaultURL | pkg/internal/testing/controlplane/apiserver.go:132-141 | a set URL is kept; a missing URL becomes the suggested `http` URL, or stays missing with the allocator's error |
| ControlPlane.WithSettings | pkg/internal/testing/controlplane/apiserver.go:146-149 | the directory, binary path and timeouts copied back are exactly the process settings |
| ControlPlane.DefaultNetwork | pkg/internal/testing/controlplane/apiserver.go:124-141 | when port and URL defaulting succeed, a URL is set |
| ControlPlane.Setup | pkg/internal/testing/controlplane/apiserver.go:107-166 | reference definition of set-up; its promises are stated by `SetupRequiresEtcdURL`, `SetupKeepsGivenSettings`, `SetupDefaultsSecurePort`, `SetupDefaultsURL`, `SetupAfterDefaulting` and `SetupExpandsTemplates`, and `SetProcessState` is proved against it |
| ControlPlane.SetupAfterInit | pkg/internal/testing/controlplane/apiserver.go:120-166 | the steps after a successful initialisation; `SetupStages` proves that set-up continues with `CompleteSetup` once defaulting succeeds, and `SetupDefaultsSecurePort` covers an allocator error while the secure port is defaulted |
| ControlPlane.CompleteSetup | pkg/internal/testing/controlplane/apiserver.go:143-165 | the steps after defaulting; `SetupAfterDefaulting` states the health check and copied settings, and `FinishSetup` is proved against it |
| ControlPlane.ExpandArgs | pkg/internal/testing/controlplane/apiserver.go:151-165 | certificates, then template expansion; its promises are stated by `ExpandArgsKeeps` and `SetupExpandsTemplates`, and `ExpandArguments` is proved against it |
| ControlPlane.SetupRequiresEtcdURL | pkg/internal/testing/controlplane/apiserver.go:108-119 | without an etcd URL, set-up fails with its error and changes nothing; a process state is created iff the etcd URL is set |
| ControlPlane.SetupKeepsGivenSettings | pkg/internal/testing/controlplane/apiserver.go:125-165 | a non-zero secure port and a set URL are never replaced; the etcd URL and the templates never change; the configured arguments change only when the templates are expanded |
| ControlPlane.SetupDefaultsSecurePort | pkg/internal/testing/controlplane/apiserver.go:124-130 | once initialised, a zero secure port becomes the suggested one, and an allocator error is returned |
| ControlPlane.ExpandArgsKeeps | pkg/internal/testing/controlplane/apiserver.go:151-165 | certificates and template expansion keep the configuration and the process settings; a certificate error stops before expansion and leaves the configured arguments alone; otherwise the process arguments, the configured argument set and the error are the expansion's |
| ControlPlane.SetupStages | pkg/internal/testing/controlplane/apiserver.go:107-166 | when defaulting succeeds, set-up finishes from the defaulted configuration and the freshly initialised process state |
| ControlPlane.SetupDefaultsURL | pkg/internal/testing/controlplane/apiserver.go:132-141 | a missing URL becomes `http` with the suggested host name and a port whose digits denote the suggested port |
| ControlPlane.SetupAfterDefaulting | pkg/internal/testing/controlplane/apiserver.go:143-153 | the health check targets the URL at `/healthz`; directory, path and timeouts are the initialised ones; certificates are populated in that directory, and a certificate error stops set-up with the configured arguments unchanged |
| ControlPlane.SetupExpandsTemplates | pkg/internal/testing/controlplane/apiserver.go:155-165 | with the certificates in place, the expansion receives the templates, the configured arguments (empty if none existed), and defaults naming the etcd servers and the URL's port; the process arguments, the configured argument set afterwards and the error are all the expansion's |
| ControlPlane.APIServer.constructor | pkg/internal/testing/controlplane/apiserver.go:20-84 | a new server holds the given settings, with no process state and no configured arguments |
| ControlPlane.APIServer.Configure | pkg/internal/testing/controlplane/apiserver.go:89-94 | the first call creates an empty argument set; later calls return the same object; nothing else changes |
| ControlPlane.APIServer.PopulateAPIServerCerts | pkg/internal/testing/controlplane/apiserver.go:192-224 | the disk and the error afterwards are those of `PopulateCerts` in the certificate directory |
| ControlPlane.APIServer.DefaultPortAndURL | pkg/internal/testing/controlplane/apiserver.go:124-141 | the fields and the error afterwards are those of `DefaultNetwork` |
| ControlPlane.APIServer.ExpandArguments | pkg/internal/testing/controlplane/apiserver.go:151-165 | fields, disk, process arguments, configured argument set and error afterwards are those of `ExpandArgs`; the argument set is created when it is first needed and then holds what the expansion appended |
| ControlPlane.APIServer.ApplyProcessSettings | pkg/internal/testing/controlplane/apiserver.go:143-149 | the health check points at the URL's health path, and directory, path and timeouts are the process's settings, with nothing else changed |
| ControlPlane.APIServer.FinishSetup | pkg/internal/testing/controlplane/apiserver.go:143-165 | fields, disk, process state, configured argument set and error afterwards are those of `CompleteSetup` |
| ControlPlane.APIServer.SetProcessState | pkg/internal/testing/controlplane/apiserver.go:107-166 | fields, disk, configured argument set and error afterwards are those of `Setup`; a fresh process state exists exactly when set-up created one, and it holds what set-up left in it, never started or stopped |
| ControlPlane.APIServer.Start | pkg/internal/testing/controlplane/apiserver.go:98-105 | an existing process state is reused without set-up and started once, with everything else unchanged; otherwise set-up runs and leaves the fields, disk and configured arguments that `Setup` gives; its error is returned without starting; on success the new state is started once, never stopped, and the launch outcome is returned |
| ControlPlane.APIServer.Stop | pkg/internal/testing/controlplane/apiserver.go:228-233 | without a process state, returns no error; otherwise returns what stopping reported and counts one stop, with the start count and the process state's contents unchanged |

## Left out

- Process internals are not modelled: locating the binary, creating the directory, launching, polling the health check and the timeouts. `Init`, `Start` and `Stop` of the process state are answers supplied from outside.
- Process.State.Init: a failed initialisation is taken to leave the settings as they were. The process package is not part of this model, so what it does on failure is not known.
- Process.State.Stop: cleaning up a temporary certificate directory is inside the process package, which is not part of this model.
- The standard output and error writers passed to `Start` are not modelled. They only receive process output.
- The port allocator is modelled as two suggestions, one per call. Binding sockets is not modelled.
- Certificate generation is modelled as an answer: either a CA with its certificate bytes and a serving certificate, or an error at any of the three steps. Cryptography is not modelled.
- File writes are all-or-nothing per file. Partial writes are not modelled.
- ControlPlane.DiskWrite: a file the write creates gets the requested mode as is. The process umask, which Go applies when creating a file, is not modelled. A file that already exists keeps its mode, as in Go.
- ControlPlane.Join: the path is the directory, a slash and the name. Go's path cleaning (double slashes, `..`) is not modelled.
- The argument-template expansion and the merge of templates, configured arguments and defaults are not modelled. They are an uninterpreted function of their inputs. The model records exactly what the function receives, and that its argument list, the flags it leaves in the configured argument set, and its error are all kept.
- The argument set's own operations (appending, enabling and disabling flags) are not modelled. It is seen only through its flag map.
- `APIServerDefaultArgs` (apiserver.go:237-249), the exported list of default argument templates, is not part of this model. None of the modelled operations reads it.
- URLs hold only a scheme, a `host[:port]` authority and a path. Escaping, user information, queries and fragments are not modelled. `String` is the plain concatenation.
- Time durations are integers of nanoseconds. Ports are unbounded integers; nothing here does arithmetic on them.
- Errors are opaque messages. Error wrapping and `os.IsNotExist` classification are reduced to the three lookup outcomes.
- Only the function-backed mapper is modelled. Other implementations of the mapper interface are not.
- Handler.EnqueueRequestsFromMapper.InjectFunc: the injection function is a pure function of the mapper, so any change it might make to the mapper is not modelled.
- Work-queue rate limiting and de-duplication are not modelled. The queue is the sequence of items added to it.
- Go's nil and empty slices are the same empty sequence.
- The scheme's initialisation (registering API types) is not modelled. Conversion to the unstructured form is a partial function. Logging a failed conversion is not modelled.
- Type detection is a fixed answer per object, given by the object's Go type. The answer does not depend on the object's current type information.
- Go map iteration order is an arbitrary choice. `MergePaths` and `MergeCRDs` state their results as a set or a name-keyed map, never as an order.
