# kim, modelled in Dafny

kim builds container images inside a Kubernetes cluster. It installs a builder on one node: a namespace,
TLS secrets, a service and a daemonset running buildkit with kim's agent. The agent serves image
operations over gRPC and mirrors images that buildkit produces into containerd's `k8s.io` namespace,
where the kubelet can see them.

This project models the core of that system:

- **Builder installer and uninstaller.** How a node gets the builder role, the managed namespace, TLS
  provisioning, the service and daemonset, the readiness wait, and the undoing of all of it.
- **TLS identities.** The CA and leaf certificates, their PEM round trip, and the secrets that hold
  them (load or generate).
- **Registry login.** The docker-config secret that stores registry credentials, and the login
  command's credential handling.
- **The agent.** The content-sync loop that copies image content from buildkit's namespace to
  `k8s.io`, and the image handlers: pull, push, tag and remove.
- **Client helpers.** Choosing the namespace, finding the agent's address, the build options, and
  normalising image references.

The Kubernetes API server and containerd are modelled as in-memory object stores (`Stores.Store`): a
map from key to object with Get, Create, Update, Delete and List. Each operation may fail for reasons
the model does not decide, but NotFound and AlreadyExists follow from what is stored. Everything kim
writes goes through these stores, so the contracts can say which objects change and which do not.

Reference parsing (docker's `reference` package), URL parsing, path handling, cryptography and clocks
are parameters. Go's runtime panics (a write into a nil map, a nil dereference) are modelled as
`Panic` errors. Timed loops are finite sequences of turns or ticks, and the end of the sequence plays
the role of the deadline.

## Model

| member | source | states |
|---|---|---|
| BuilderInstall.DetectRuntime | pkg/client/builder/install.go:497-520 | The runtime is embedded containerd exactly when the version's scheme is "containerd" and its host contains "-k3s". Any other containerd is external. Every other scheme is unsupported, and the error carries the scheme. |
| BuilderInstall.FillDefault | pkg/client/builder/install.go:503-518 | A socket or volume setting that is already set is kept; an empty one takes the runtime's default. |
| BuilderInstall.WithBuilderRole | pkg/client/builder/install.go:521-523 | The node gains builder=true; its other labels, name, runtime and addresses are unchanged. |
| BuilderInstall.AssignRole | pkg/client/builder/install.go:497-523 | A runtime version that does not parse gives the wrapped parse error. An unsupported runtime gives its message. Otherwise K3s or stock defaults fill the unset settings, and the node to write carries the role. |
| BuilderInstall.AssignRoleStable | pkg/client/builder/install.go:491-526 | Assigning again after a successful assignment reaches the same decision, and settings that were already set never change. |
| BuilderInstall.SuggestedLabel | pkg/client/builder/install.go:529-533 | The suggested selector is k3s.io/hostname exactly when the first listed node has that label, and kubernetes.io/hostname otherwise. |
| BuilderInstall.EnsureManaged | pkg/client/builder/install.go:115-120 | managed-by=kim is added only when the key is missing and is never overwritten; every other label is kept. A nil map becomes a map holding only that label. |
| BuilderInstall.EnsureManagedIdempotent | pkg/client/builder/install.go:115-120 | Labelling twice is the same as labelling once. |
| BuilderInstall.Int32 | pkg/client/builder/install.go:536-572 | The int-to-int32 conversion of a port lands in the signed 32-bit range, differs from the input by a multiple of 2^32, and keeps every value already in range. |
| BuilderInstall.Int32Wraps | pkg/client/builder/install.go:536-572 | A port of 2^31 becomes -2^31, and 2^32 + 1233 becomes 1233. |
| BuilderInstall.ReadinessFromCases | pkg/client/builder/install.go:73-95 | The wait succeeds exactly when some attempt among the first 15 sees a ready count above zero, and every attempt before it answered a ready count of zero. Fifteen not-ready answers time out. |
| BuilderInstall.ReadinessBounded | pkg/client/builder/install.go:73-95 | Two polls that agree on the first 15 attempts lead to the same outcome. |
| BuilderInstall.WaitReady | pkg/client/builder/install.go:73-95 | The loop's result equals the readiness specification of the poll. |
| BuilderInstall.NodesAddressesOfKindMember | pkg/client/builder/install.go:150-163 | An address is collected exactly when some node has an address of that kind with that value. |
| BuilderInstall.CollectSans | pkg/client/builder/install.go:150-163 | The DNS SANs are builder.&lt;namespace&gt;.svc followed by every Hostname address of the nodes. The IP SANs are exactly the nodes' InternalIP addresses. |
| BuilderInstall.Install.constructor | pkg/client/builder/install.go:25-31 | The installer holds the given flags and settings. |
| BuilderInstall.Install.CheckNoFail | pkg/client/builder/install.go:33-42 | With NoFail set every error becomes nil; without it the error is returned unchanged. |
| BuilderInstall.Install.ContainerPortFor | pkg/client/builder/install.go:536-553 | "buildkit" and "kim" get the int32-converted buildkit or agent port over TCP; any other name gets port 0 and no protocol. |
| BuilderInstall.Install.ServicePortFor | pkg/client/builder/install.go:555-572 | "buildkit" and "kim" get the int32-converted buildkit or agent port over TCP; any other name gets port 0 and no protocol. |
| BuilderInstall.Install.BuilderService | pkg/client/builder/install.go:191-210 | The service is named builder in the namespace, carries managed-by=kim, is a NodePort, selects only labels the daemonset's pods carry, and exposes the buildkit port, then the agent port. |
| BuilderInstall.Install.BuilderDaemonSet | pkg/client/builder/install.go:258-470 | The daemonset is named builder in the namespace, carries managed-by=kim, runs the resolved agent and buildkit images with the configured sockets and volume, and exposes the buildkit port, then the agent port. |
| BuilderInstall.Install.NodeRoleAttempt | pkg/client/builder/install.go:491-526 | One attempt. A failed Get returns its error and writes nothing. A failed assignment returns its error and writes nothing. Otherwise the new socket and volume settings are recorded, and a successful Update stores the assigned node and changes no other node. |
| BuilderInstall.Install.NodeRole | pkg/client/builder/install.go:479-534 | The listing holds exactly the nodes the selector matches. A failure changes no node. No match gives "failed to select any nodes"; several give the too-many-nodes error for the first; both leave the settings unchanged. Exactly one match is assigned its role in at most 5 attempts, and only that node is updated. |
| BuilderInstall.Install.RetryNodeRole | pkg/client/builder/install.go:491-526 | At most 5 attempts, and all 5 are used when Conflict persists. A failure writes nothing. Success stores the assigned node and the assigned settings and changes no other node. |
| BuilderInstall.Install.NamespaceAttempt | pkg/client/builder/install.go:98-123 | An absent namespace is created with the managed-by label. A present one is updated to its EnsureManaged labels. Error paths write nothing. |
| BuilderInstall.Install.Namespace | pkg/client/builder/install.go:98-123 | Retried on conflict. A failure changes nothing. An absent namespace is created carrying only managed-by=kim. A present one gets EnsureManaged labels, and no other namespace changes. |
| BuilderInstall.Install.DeleteTlsSecrets | pkg/client/builder/install.go:128-136 | Force deletes the CA, server and client TLS secrets; NotFound is ignored; no other secret changes. |
| BuilderInstall.Install.AssertTls | pkg/client/builder/install.go:139-173 | Only the requested secret can be added, and every existing secret keeps its value. A secret added is the TLS secret of the pair Certs.Generate makes for the identity. Success returns the stored secret decoded. |
| BuilderInstall.Install.ListBuilders | pkg/client/builder/install.go:143-148 | A successful listing holds exactly the stored nodes carrying node-role.kubernetes.io/builder=true, as stored. |
| BuilderInstall.Install.AssertServerTls | pkg/client/builder/install.go:164-168 | Only the server secret can be added. A server secret written here holds one certificate: a ServerAuth certificate for kube-image-server naming exactly the requested DNS names and IPs. |
| BuilderInstall.Install.AssertServerFromNodes | pkg/client/builder/install.go:143-168 | A List error is returned. After a listing, the builders are exactly the stored nodes with the builder role, the SANs are builder.&lt;namespace&gt;.svc plus their Hostname addresses and their InternalIP addresses, and a server secret written here names exactly those SANs. |
| BuilderInstall.Install.AssertTlsSecrets | pkg/client/builder/install.go:139-173 | The CA, then the server leaf, then the client leaf, stopping at the first failure. Only the three TLS secrets can appear, each as a kim TLS secret, and existing secrets are kept. Success leaves all three stored. The builders are exactly the stored builder-role nodes, and a server secret written here names their SANs. |
| BuilderInstall.Install.Secrets | pkg/client/builder/install.go:125-175 | Only the three TLS secrets may be removed (with Force) or added, and every other secret is kept. Every secret written is a kim TLS secret. Success leaves all three stored. A server secret written here names builder.&lt;namespace&gt;.svc and the Hostname and InternalIP addresses of exactly the stored builder-role nodes. |
| BuilderInstall.Install.ServiceAttempt | pkg/client/builder/install.go:189-223 | An absent service is created as the NodePort builder service with the buildkit and kim ports. A present one gets EnsureManaged labels. A failure changes nothing. |
| BuilderInstall.Install.Service | pkg/client/builder/install.go:177-224 | A non-positive agent port becomes the default. With Force the service is deleted first. Then the service is created or labelled, retried on conflict, and a failure leaves the store as after the delete. |
| BuilderInstall.Install.CreateDaemonSet | pkg/client/builder/install.go:471-475 | An existing daemonset gives "builder already installed" and is never replaced. Otherwise the new one is stored. |
| BuilderInstall.Install.DaemonSet | pkg/client/builder/install.go:226-476 | With Force the daemonset is deleted first. The agent image is resolved before the buildkit image, and its error stops the step. An existing daemonset gives "builder already installed". On success the daemonset with the resolved images is stored. |
| BuilderInstall.Install.AssertNodeRole | pkg/client/builder/install.go:48-51 | On success exactly one stored node matches the selector, and only that node changed, to its assigned version with the builder role. |
| BuilderInstall.Install.AssertNamespace | pkg/client/builder/install.go:52-55 | On success kim's namespace exists and carries the managed-by key. |
| BuilderInstall.Install.AssertSecrets | pkg/client/builder/install.go:56-59 | On success the CA, server and client TLS secrets are stored. |
| BuilderInstall.Install.AssertService | pkg/client/builder/install.go:60-63 | On success the builder service exists and carries the managed-by key. |
| BuilderInstall.Install.AssertDaemonSet | pkg/client/builder/install.go:64-67 | On success the stored builder daemonset is the one built from the resolved images. |
| BuilderInstall.Install.AssertResources | pkg/client/builder/install.go:52-67 | Namespace, secrets, service and daemonset run in that order up to the first failure. When none fails, the namespace, the three TLS secrets, the service and the daemonset are all in place. |
| BuilderInstall.Install.AssertAll | pkg/client/builder/install.go:48-67 | The node role runs first, then AssertResources, stopping at the first failure. When none fails, the one selected node carries the builder role and the namespace, secrets, service and daemonset are in place. |
| BuilderInstall.Install.Do | pkg/client/builder/install.go:44-96 | The steps run in order (node role, namespace, secrets, service, daemonset) and stop at the first failure, whose error passes through CheckNoFail. So NoFail turns a failure into success but still skips the remaining steps and the wait. When every step succeeds, the one selected node carries the builder role and the namespace, TLS secrets, service and daemonset are in place. Then NoWait returns success, and otherwise the result is the readiness outcome of the poll. |
| BuilderUninstall.InstalledNamespaceIsManaged | pkg/client/system/builder/uninstall.go:28-30 | A namespace created by the installer, or labelled by EnsureManaged, is recognised as managed. |
| BuilderUninstall.WaitOutcome | pkg/client/system/builder/uninstall.go:45-62 | An error from the wait is the error of a context end among the observed events. |
| BuilderUninstall.WaitOutcomeCases | pkg/client/system/builder/uninstall.go:49-62 | The wait succeeds exactly when a Deleted or NotFound event comes before the context ends. Otherwise it returns the context's error. |
| BuilderUninstall.StripRole | pkg/client/system/builder/uninstall.go:87-90 | Only the builder role key is removed; every other label and field is kept; nil labels stay nil. |
| BuilderUninstall.StripRoleIdempotent | pkg/client/system/builder/uninstall.go:90-91 | Stripping twice is the same as stripping once. |
| BuilderUninstall.StripRoleWithoutRole | pkg/client/system/builder/uninstall.go:87-92 | A node without the role is left as it is. |
| BuilderUninstall.StripUndoesInstall | pkg/client/system/builder/uninstall.go:90 | Stripping undoes the installer's labelling of a node that lacked the role. |
| BuilderUninstall.Uninstall.constructor | pkg/client/system/builder/uninstall.go:17-19 | The uninstaller holds the force flag. |
| BuilderUninstall.Uninstall.Namespace | pkg/client/system/builder/uninstall.go:22-63 | A Get error is returned and nothing changes. A namespace that is not managed is refused unless forced. Otherwise it is deleted, and the result is the outcome of the wait for its deletion. |
| BuilderUninstall.Uninstall.RemoveNodeRoleAttempt | pkg/client/system/builder/uninstall.go:81-94 | Error paths write nothing. On success the node becomes its StripRole and no other node changes. A node with nil labels is not written. |
| BuilderUninstall.Uninstall.RemoveNodeRole | pkg/client/system/builder/uninstall.go:74 | Retried on conflict. On success only that node changed, to its StripRole. |
| BuilderUninstall.Uninstall.RemoveNodeRoles | pkg/client/system/builder/uninstall.go:73-77 | Removal is attempted on every listed name: each lands in exactly one of the stripped names, now their StripRole, and the failed ones, left as they were. Unlisted nodes are unchanged, and none is added or removed. |
| BuilderUninstall.Uninstall.NodeRole | pkg/client/system/builder/uninstall.go:66-79 | Only a List error is returned, and it changes nothing. After a listing, every builder-labelled node is listed, and the listed names split into stripped nodes (now their StripRole) and failed ones (unchanged). Nodes without the label never change. |
| Cert.Sign | pkg/cert/cert.go:72-76 | Signing succeeds exactly when the signer does not fail, and the result carries the template, the issuer and the signer's key. |
| Cert.CaOrganization | pkg/cert/cert.go:31-33 | Without organisations the CA's organisation is its common name, else the list given. |
| Cert.NewCA | pkg/cert/cert.go:26-43 | A key failure is returned. The certificate is self-issued and self-signed by the new key. It is a CA with KeyEncipherment, DigitalSignature and CertSign, and its subject is the common name with CaOrganization. |
| Cert.ClientSubject | pkg/cert/cert.go:66-70 | A client common name of the form "cn,o=org1,o=org2" is split on ",o=": the first piece is the common name and the rest are the organisations. A name without ",o=" stays whole with no organisations. |
| Cert.ClientSubjectRoundTrip | pkg/cert/cert.go:66-70 | Joining the subject back with ",o=" gives the original name. |
| Cert.NewSignedCert | pkg/cert/cert.go:49-104 | The serial is in [0, MaxInt64). NotBefore comes from the issuer and NotAfter is now plus 365 days. The certificate is not a CA, is issued by the issuer's subject and is signed by the signer. A client certificate has only ClientAuth and its subject split from the name. A server certificate has ServerAuth and exactly the given organisations, DNS names and IPs. A serial failure is returned. |
| Cert.FirstKey | pkg/cert/cert.go:118-126 | The key found is the first private-key block of the input: no block before it is a key. None is found only when there is no such block. |
| Cert.Certs | pkg/cert/cert.go:127-135 | Every certificate returned comes from a certificate block of the input. |
| Cert.CertsInOrder | pkg/cert/cert.go:127-135 | Certs returns one certificate per CERTIFICATE block and keeps their order: the block with k certificate blocks before it gives the k-th certificate. |
| Cert.Unmarshal | pkg/cert/cert.go:118-135 | Succeeds exactly when there is a key that is a signer and at least one certificate, and returns the first certificate. A key that is not a signer gives "key is not a crypto.Signer". |
| Cert.UnmarshalFirstCertificate | pkg/cert/cert.go:118-135 | The first certificate of a chain is the one returned. |
| Cert.MarshalRoundTrip | pkg/cert/cert.go:106-135 | Unmarshalling the marshalled pair gives it back, and a key that is not a signer gives "key is not a crypto.Signer". |
| Certs.TlsSecretLoads | pkg/client/certs.go:71-91 | A secret written by kim is a kim TLS secret, and loading it gives back its certificate and key. |
| Certs.Load | pkg/client/certs.go:24 | A decoded secret gives a signing key and a certificate that occur as blocks of its key and certificate entries. A secret missing either entry does not decode. |
| Certs.Generate | pkg/client/certs.go:49-69 | A CA identity gives NewCA named after the secret. A leaf uses the fresh key, is signed by the issuer and is not a CA. A server leaf has only ServerAuth and exactly the requested subject, DNS names and IPs; a client leaf has only ClientAuth and the subject split from its name. |
| Certs.MarshalAndCreateCert | pkg/client/certs.go:71-91 | On success the stored secret is the TLS secret of that certificate and key and nothing else changed. An existing secret is never overwritten. |
| Certs.CreateAndStoreCA | pkg/client/certs.go:49-55 | On success the stored CA's common name is the secret's name. Failures write nothing. |
| Certs.CreateAndStoreCert | pkg/client/certs.go:57-69 | On success the stored certificate is the one issued by the CA for the subject. Failures write nothing. |
| Certs.LoadOrGen | pkg/client/certs.go:16-47 | A secret is created only on NotFound. An existing one is decoded and never overwritten. Other Get errors are returned unchanged. After a failed Create nothing is read back. |
| Certs.LoadOrGenTwice | pkg/client/certs.go:16-25 | Asking twice creates at most one secret, leaves every earlier secret as it was, and two successful answers are equal. |
| KubeClient.Interface.constructor | pkg/client/client.go:47-53 | The interface works in the given namespace. |
| KubeClient.ChosenNamespace | pkg/client/client.go:70-77 | The namespace is never empty: the flag if set, else the kubeconfig's, else "kube-image". |
| KubeClient.NewInterface | pkg/client/client.go:55-122 | A config or connection error is returned, and success uses the chosen namespace. |
| KubeClient.ConfigInterface | pkg/client/client.go:40-45 | A missing config gives "client is not configured"; otherwise it behaves as NewInterface. |
| KubeClient.PortNamed | pkg/client/client.go:134-137 | A port is found exactly when some port has that name, and the value is that port's. |
| KubeClient.FindEndpointFirst | pkg/client/client.go:130-146 | An endpoint is found exactly when some subset has an address and the named port, and it is the first such subset's first address. |
| KubeClient.GetServiceAddress | pkg/client/client.go:124-148 | Service and endpoint errors are returned. The override annotation replaces the host but keeps the endpoint's port, joined as host:port. An unknown port gives "unknown service port". |
| KubeClient.GetEndpointsAddress | pkg/client/action/action.go:119-135 | An endpoints error is returned. Otherwise the result is the first serving subset's address and port joined as host:port, or "unknown service port". The identical search in pkg/client/do/do.go:13-29 is the same member. |
| KubeClient.EndpointsAddressWithoutOverride | pkg/client/client.go:138-141 | Without the override annotation, the service lookup gives the same answer as the endpoints-only lookup. |
| KubeClient.OverrideWins | pkg/client/client.go:138-141 | With the annotation and a subset serving the port, the lookup succeeds with the override host and some port. |
| ServerConfig.VersionTag | pkg/server/config.go:52 | Every '+' of the version becomes '-', and every other character is kept. |
| ServerConfig.AgentImage | pkg/server/config.go:41-61 | A non-default image is returned as is. For the default image, a parse error is returned with the image unchanged. Otherwise the image is tagged with the version when the version is a valid tag. |
| ServerConfig.AgentImageTagged | pkg/server/config.go:50-56 | A valid version tag gives the familiar name with that tag; an invalid one gives the image unchanged with the tag error. |
| ServerConfig.Config.constructor | pkg/server/config.go:31-39 | The config holds the given settings. |
| ServerConfig.Config.GetAgentImage | pkg/server/config.go:41-61 | An empty setting is first set to the default image; the result is AgentImage of the setting. |
| ServerConfig.Config.GetBuildkitImage | pkg/server/config.go:63-68 | An empty setting is set to the default buildkit image and returned without error. |
| BuilderLogin.StoredConfig | pkg/client/builder/login.go:54-59 | A secret without the config key reads as a config with no auths; otherwise the key's JSON is decoded. |
| BuilderLogin.UpsertAsWrittenPanics | pkg/client/builder/login.go:60-63 | As written, an existing secret with no config panics on the nil auths map, where the corrected Upsert succeeds. |
| BuilderLogin.Upsert | pkg/client/builder/login.go:54-71 | A config that does not decode gives its error; otherwise the update succeeds. |
| BuilderLogin.UpsertAgreesWithoutPanic | pkg/client/builder/login.go:54-71 | Whenever the stored config has an auths map, the as-written update and the corrected one agree. |
| BuilderLogin.UpsertSetsEntry | pkg/client/builder/login.go:60-70 | The server's entry is set and every other entry is kept. The secret keeps its name and namespace and becomes a docker-config secret. |
| BuilderLogin.NewLoginSecretSingleEntry | pkg/client/builder/login.go:25-53 | A new login secret holds exactly one entry, the server's. |
| BuilderLogin.Login.constructor | pkg/client/builder/login.go:16-20 | The login holds the given credentials. |
| BuilderLogin.Login.DoAttempt | pkg/client/builder/login.go:24-71 | Creates the single-entry secret when it is absent, else updates it with Upsert. A config that does not decode gives an error and no write. Any other Get error panics on the nil auths map of the blank object the client returns, and nothing is written. |
| BuilderLogin.Login.Do | pkg/client/builder/login.go:22-73 | Retried on conflict. Errors write nothing, and an existing secret keeps its other entries. On success the secret holds these credentials for the server. |
| LoginCommand.StdinPassword | pkg/cli/command/builder/login/login.go:49-50 | Exactly one trailing "\n" and then one trailing "\r" are removed; text without either is kept. |
| LoginCommand.StdinPasswordTrimsOnce | pkg/cli/command/builder/login/login.go:49-50 | Only one line ending is trimmed. |
| LoginCommand.ServerKey | pkg/cli/command/builder/login/login.go:83-98 | An argument that parses without a scheme always gives a key. When neither parse works, the URL parse error is returned. |
| LoginCommand.ServerKeyCases | pkg/cli/command/builder/login/login.go:89-97 | Docker Hub without a path gives the v1 index URL, and with a path gives the index host with that path. Any other server gives its host. |
| LoginCommand.CommandSpec.constructor | pkg/cli/command/builder/login/login.go:29-31 | The command holds the flags. |
| LoginCommand.CommandSpec.Credentials | pkg/cli/command/builder/login/login.go:38-82 | The password and password-stdin flags are exclusive, and stdin needs a username. Prompts need a terminal. An empty password gives "password is required". On success the password is non-empty. |
| LoginCommand.CommandSpec.Run | pkg/cli/command/builder/login/login.go:33-99 | Nothing is written unless the credentials and the server key are obtained. Success stores the credentials under the server key. |
| CredentialProvider.ImageToRepositoryUrl | pkg/credential/provider/provider.go:48-58 | An unparseable image or a Docker Hub image gives the Hub's legacy URL; any other gives https://&lt;domain&gt;. |
| CredentialProvider.RepositoryUrlIsHttps | pkg/credential/provider/provider.go:48-58 | Every repository URL is https, and two images of one registry share it. |
| CredentialProvider.DockerCredentialHelper.constructor | pkg/credential/provider/provider.go:15-21 | A new helper has not been probed. |
| CredentialProvider.DockerCredentialHelper.Enabled | pkg/credential/provider/provider.go:23-29 | The helper program is looked up on the first call only, and later calls return the stored answer. |
| CredentialProvider.DockerCredentialHelper.Provide | pkg/credential/provider/provider.go:31-44 | A helper error or no answer gives an empty config. Otherwise the config has one entry, keyed by the image, with the helper's username and secret. |
| ImagePull.PullPlatform | pkg/server/images/pull.go:38-41 | Without annotations the default platform is used; with them, the platform annotation, read as "" when missing. |
| ImagePull.ChooseAttempt | pkg/server/images/pull.go:21-25 | Pulls through CRI exactly when annotations exist and ask for the CRI backend; otherwise containerd pulls the image for PullPlatform. |
| ImagePull.Pull | pkg/server/images/pull.go:18-32 | A request without an image panics on the nil dereference. Otherwise it succeeds exactly when the chosen backend does, echoing the image, and a failure returns the backend's error. |
| ImagePull.StatusName | pkg/server/images/pull.go:92-97 | "unpacking" when the offset equals the total, "downloading" when it is positive, and "waiting" otherwise. |
| ImagePull.Report | pkg/server/images/pull.go:90-106 | One status per ingest, in listing order. |
| ImagePull.ContinuedFrom | pkg/server/images/pull.go:72-110 | Never counts more reports than there are turns. |
| ImagePull.ProgressSucceeds | pkg/server/images/pull.go:72-110 | PullProgress succeeds exactly when the image is found after turns that each sent a report. |
| ImagePull.PullProgress | pkg/server/images/pull.go:63-113 | The result is the loop's specification, and one report is sent per continuing turn, in order. |
| ImagePush.Relay | pkg/server/images/push.go:57-66 | The feed's batches are sent in order, stopping at the first failed send, whose error is returned. |
| ImagePush.WaitForTracker | pkg/server/images/push.go:67-74 | The wait finds the tracker of the first registration, or stops with the error of the first cancellation, when only empty turns come before it. It times out exactly when every turn is empty. |
| ImagePush.PushServer.constructor | pkg/server/images/push.go:18-20 | The server starts with no push jobs. |
| ImagePush.PushServer.Push | pkg/server/images/push.go:22-47 | A request without an image panics on the nil dereference. The tracker is stored under the resolved name before the transfer, whatever its outcome, and replaces any existing one. Nothing is registered when the lookup fails. |
| ImagePush.PushServer.PushProgress | pkg/server/images/push.go:50-76 | The job is deleted on every path and relayed in order. A timeout gives nil; a cancellation gives the context's error. |
| RefSpec.RefSpecAsWritten | pkg/client/image/spec.go:18-34 | As written, a failed status call panics. |
| RefSpec.RefSpecAsWrittenPanics | pkg/client/image/spec.go:22-23 | As written, a failed status call panics where the corrected RefSpec falls back to normalising the name. |
| RefSpec.RefSpecAsWrittenAnswersNothing | pkg/client/image/spec.go:33 | As written, an unknown image that does not parse gives neither a reference nor an error. |
| RefSpec.RefSpec | pkg/client/image/spec.go:18-34 | The image ID branch comes first. Otherwise the name is normalised and tag-defaulted, and an image that does not parse gives an error. |
| RefSpec.RefSpecAgreesWhereDefined | pkg/client/image/spec.go:24-32 | Wherever the as-written code answers, the corrected one gives the same answer. |
| RefSpec.RefSpecShape | pkg/client/image/spec.go:24-32 | A normalised answer always carries a tag or a digest. |
| ImageRemove.RefsToDelete | pkg/server/images/remove.go:29-41 | The requested name comes first. A single other tag is added. An image ID adds all other names, and anything else adds none. |
| ImageRemove.ChosenRefs | pkg/server/images/remove.go:29-41 | The chosen names are stored, share the target and are distinct. |
| ImageRemove.ChooseRefs | pkg/server/images/remove.go:25-41 | A missing image is an error. Otherwise the listing is exactly the other stored images of the requested image's target, each once, and the names are RefsToDelete of the requested name and the listing's names: all stored, sharing the target, distinct. |
| ImageRemove.DeleteAll | pkg/server/images/remove.go:42-48 | Names are deleted in order up to the first failure, and only those names are removed. |
| ImageRemove.Remove | pkg/server/images/remove.go:15-50 | A lease error or a missing image changes nothing, and an empty request succeeds. Otherwise the names are RefsToDelete of the requested name and the other stored images of its target, and they are deleted in order up to the first failure. |
| ImageTag.TagOne | pkg/server/images/tag.go:28-41 | On success the tag names a copy of the image. On failure the store is unchanged or has lost only that tag. |
| ImageTag.Tag | pkg/server/images/tag.go:14-51 | A lease error, a request without an image (a nil-dereference panic once the lease is held) or a missing image changes nothing. Completed tags name copies of the source, and names beyond the current tag are untouched. Success returns the source's status. |
| TagCommand.SourceImage | pkg/client/image/tag.go:17-19 | The normalised, tag-defaulted name when it parses, else the image as typed. |
| TagCommand.NormalizeTags | pkg/client/image/tag.go:20-27 | Succeeds exactly when every tag parses, and gives each tag's full form in order. Otherwise it gives the first parse error. |
| TagCommand.Do | pkg/client/image/tag.go:16-42 | No request is sent unless every tag parses. The request carries the source and the tags in order. |
| ContentSync.PollRoundFound | pkg/server/agent_linux.go:199-214 | A round ends at turn j exactly when the lookup before j succeeded and every earlier lookup of the round reported NotFound. |
| ContentSync.PollRoundTimesOut | pkg/server/agent_linux.go:191-218 | A round that hears only NotFound ends at the deadline. |
| ContentSync.PollRoundAborts | pkg/server/agent_linux.go:199-214 | After NotFound lookups only, a cancellation ends the round with the context's error, and any other lookup error ends it with that error. |
| ContentSync.PollRoundsLength | pkg/server/agent_linux.go:199-214 | Each round takes at least one turn, and the rounds never need more turns than there are. |
| ContentSync.WaitTicks | pkg/server/agent_linux.go:191-218 | A failed check is returned. Available content, or content with nothing missing, needs no turns. Otherwise there is one polling round per missing descriptor. |
| ContentSync.WaitIgnoresMissingDigests | pkg/server/agent_linux.go:205 | The wait depends only on whether something is missing, not on which digests are. |
| ContentSync.AwaitLookup | pkg/server/agent_linux.go:199-214 | The loop's result equals the round's specification. |
| ContentSync.WaitContentInfo | pkg/server/agent_linux.go:191-218 | A failed wait is returned. On success the info is the source's blob for the digest, and a digest missing from the source is an error. |
| ContentSync.WriterOptions | pkg/server/agent_linux.go:169-175 | The descriptor is passed to the writer exactly when the destination's Info is NotFound. |
| ContentSync.CopyHandler | pkg/server/agent_linux.go:156-187 | The destination only mirrors the source and gains at most this blob. A source-side failure writes nothing. The writer gets the descriptor exactly when Info reports NotFound. A blob already in the destination counts as success. |
| ContentSync.ChildrenOf | pkg/server/agent_linux.go:149-152 | A blob that is not a manifest or an index has no children. A manifest or index gives the children stored with it, and one missing from the source is an error. |
| ContentSync.CopiedGrows | pkg/server/agent_linux.go:149-152 | A copied graph stays copied as the destination grows. |
| ContentSync.CopiedCoversPaths | pkg/server/agent_linux.go:149-152 | A copied descriptor has every blob reachable from it copied. |
| ContentSync.Walk | pkg/server/agent_linux.go:149-152 | Success means the whole reachable graph of every descriptor is copied; the destination only ever mirrors the source. |
| ContentSync.Upsert | pkg/server/agent_linux.go:115-136 | Create first, and Update exactly when the record already exists. Success stores the record. A failure changes nothing. |
| ContentSync.CopyImageContent | pkg/server/agent_linux.go:139-154 | A failed lookup returns its error. A failed walk writes no record. Success means both succeeded, and the image's whole content graph was copied before its record. |
| ContentSync.HandleImageEvent | pkg/server/agent_linux.go:109-137 | An undecodable event gives the wrapped unmarshal error. Events other than image create and update leave the stores as they were, and other event kinds succeed. Create and update sync the named image. |
| ContentSync.DeliveredAtSuffix | pkg/server/agent_linux.go:84-107 | The events delivered from a point are those of the remaining feed up to a stop. |
| ContentSync.DeliveredExactly | pkg/server/agent_linux.go:84-107 | An event is handled exactly when it comes from the namespace before a stop. |
| ContentSync.HandleSelection | pkg/server/agent_linux.go:86-106 | An event from the watched namespace is added to the handled ones; errors and other namespaces add none. Content keeps mirroring the source and records come from it. |
| ContentSync.SyncImageContent | pkg/server/agent_linux.go:84-107 | The events handled are exactly the delivered ones, whatever their errors. Content only mirrors the source. Each record gained or changed is the source's record of a synced name. |
| ContentSync.ServerTransport | pkg/server/agent_linux.go:47-82 | A listen error is returned. The server is plaintext exactly when the certificate, key or CA is empty. Otherwise it uses TLS and requires and verifies client certificates. |
| ImageBuild.SettingsLastWins | pkg/client/image/build.go:104-116 | For a repeated key the last setting wins. |
| ImageBuild.FixedAttrs | pkg/client/image/build.go:117-135 | add-hosts is present exactly when there are hosts, filename always, no-cache exactly with the flag ("" as value), image-resolve-mode "pull" exactly with pull. |
| ImageBuild.DedupSpec | pkg/client/image/build.go:151-168 | Deduplication keeps first occurrences, in order, and loses none. |
| ImageBuild.ProgressSinkFor | pkg/client/image/build.go:170-192 | "none" gives no channel, "plain" a channel without a console, and any other mode a channel that uses the console when there is one. |
| ImageBuild.AttrsLayout | pkg/client/image/build.go:98-137 | The target, the build-arg settings, the label settings and the fixed attributes use disjoint keys, so each keeps its own values in the merged map. |
| ImageBuild.SettingsKeys | pkg/client/image/build.go:104-116 | Every key of the settings comes from some "k=v" setting under its prefix. |
| ImageBuild.Build.constructor | pkg/client/image/build.go:23-38 | The builder holds the given flags. |
| ImageBuild.Build.AddSettings | pkg/client/image/build.go:104-116 | Each "k=v" setting is added under the prefix, and the last one for a key wins. |
| ImageBuild.Build.FrontendAttrs | pkg/client/image/build.go:98-137 | The target and filename (the Dockerfile's base name, or "Dockerfile") are always set. add-hosts, no-cache and image-resolve-mode are present exactly when their flags are set. Outside those keys the map holds exactly the build-arg and label settings, with their last values. |
| ImageBuild.Build.LocalDirs | pkg/client/image/build.go:139-149 | The context directory is the path. The dockerfile directory is the file's directory, or the context when no file is given. |
| ImageBuild.Build.CacheImports | pkg/client/image/build.go:151-168 | One import per distinct cache source, first occurrences in order. |
| ImageBuild.Build.DefaultExporter | pkg/client/image/build.go:194-213 | The tags are rewritten to their normal form, or kept when they do not parse. The one image exporter is named by the rewritten tags joined with ",", or has no attributes without tags. |
| ImageBuild.Build.BaseOptions | pkg/client/image/build.go:42-52 | The frontend is dockerfile.v0 with the frontendAttrs attributes. The local directories are LocalDirs. There is one cache import per distinct source. The tags are normalised, and the exports are the image exporter named by them exactly when there are tags. |
| ImageBuild.Build.Do | pkg/client/image/build.go:40-96 | The options are BaseOptions with the parsed output exports appended after the default exporter. An output flag that does not parse gives its error. The build fails exactly when the output, the secrets or the SSH flags do not parse or the solve fails. Quiet forces progress "none" and no channel. The image ID is printed exactly when quiet and the solve reports a config digest, and it is that digest. |
| Kube.UnmarshalConfig | pkg/client/builder/login.go:55-59 | Only JSON text decodes. |
| Kube.MarshalConfig | pkg/client/builder/login.go:64 | A marshalled config decodes to itself. |
| Refs.TagNameOnlyIdempotent | pkg/client/image/tag.go:18 | Defaulting the tag twice is defaulting once, and a tagged or digested name is unchanged. |
| Refs.FamiliarTagged | pkg/server/config.go:56 | A tagged name prints as its familiar name, ":" and the tag. |
| Text.JoinSplit | pkg/cert/cert.go:66 | Joining a split by the separator gives the original text. |
| Text.SplitSingle | pkg/cert/cert.go:66 | Text without the separator splits into itself alone. |
| Text.TrimSpaceEmpty | pkg/cli/command/builder/login/login.go:78-81 | Trimming all-space text gives "", so an all-space password is refused. |
| Text.FormatIntRoundTrip | pkg/client/client.go:142 | Decimal formatting reads back as the number. |
| Text.JoinHostPort | pkg/client/client.go:142 | host:port, with an IPv6 host in brackets. |

## Left out

- Connecting to the agent is not modelled: the gRPC dial and its TLS files (config.go:70-98, the client's Images and Control connections, DoImages and DoControl). This is I/O; the model takes a connection error as a parameter.
- Loading the kubeconfig and `os.Setenv` are left out as I/O. The loaded namespace is a parameter.
- ECDSA key generation, x509 encoding and PEM encoding are opaque. A certificate is its template plus its issuer and signer, and PEM is a sequence of typed blocks.
- Concurrency is left out: the goroutines started by Agent.Run (agent_linux.go:31-45), and the interleaving of Push with PushProgress, which is modelled as the turns in which a tracker may appear.
- The daemonset's pod template literal (install.go:260-470) is reduced to the settings kim derives: images, sockets, volume and ports.
- The K3s and stock socket and volume defaults, and the buildkit namespace, are defined outside the modelled files. They are parameters.
- Timeouts are not modelled as time; each timed loop is a finite sequence of turns whose end is the deadline:
  - the readiness wait: 15 attempts with a 5-second backoff (install.go:73-80);
  - the 1-minute context Do gives each step (install.go:45), which the stores' own errors stand for;
  - the content-availability polls every 100 ms under a 3-minute ceiling (agent_linux.go:146, 204);
  - the 15-second push wait with its 100 ms timer (push.go:54, 67-74);
  - the uninstall's 5-second tick (uninstall.go:55).
- Build.Do's session attachables (auth, secrets, SSH) and buildkit's Solve are calls the model cannot see; the outcome of Solve is a parameter.
- Logging is left out; it has no effect on state.
- GetDockerKeyring (client.go:150-162) and RegisterDockerCredentialHelper are left out: they only wire providers into the kubelet's keyring.
- The CRI and containerd pull implementations (pullCRI, pullCTD) and the push transfer itself are left out. Their outcomes are parameters.
- The uninstaller's informer is modelled as a sequence of Deleted, NotFound and other events.
- ImageBuild.FrontendAttrs: the attributes are a map, so the order in which Go inserts them is not modelled.
- Stores.Store: Get, Create, Update and Delete may fail for reasons of their own. Only NotFound, AlreadyExists and the effect of a success follow from the stored objects.
- BuilderLogin.Upsert: a secret's Data is a map that is never nil, so the panic at login.go:69 on an existing secret with no data is not modelled. As written, line 60 already panics on such a secret; with the corrected auths map (see Findings) the write at line 69 would still need the Data map started empty, which Upsert assumes.
- BuilderLogin.Login.DoAttempt: a Get error other than NotFound is modelled as the panic the code reaches (the blank object has no config, so line 60 writes into a nil auths map), not as the corrected Upsert; the corrected code would panic at line 69 on the blank object's nil Data in the same case.
- BuilderInstall.CollectSans: an IP SAN is the InternalIP address text. install.go:158 appends `net.ParseIP` of it, which is nil for text that is not an IP address; the model does not parse addresses, so such an entry is not told apart.
- Refs.UrlString: only the scheme, host and path of a URL are kept. The user info, query and fragment that `url.URL.String()` (login.go:96) writes back, and its escaping of the path, are dropped, so LoginCommand.ServerKey's Docker Hub key loses them too.
- BuilderUninstall.Uninstall.Namespace: the deletion wait (uninstall.go:45-62) has no bound of its own, because the command's context has no deadline; a namespace that is never deleted (held by a finalizer, say) keeps it polling until the user interrupts. The model covers only runs where some event ends the wait, which its requires states.
- BuilderUninstall.WaitOutcome: defined only up to an event that ends the wait, for the same reason.
- BuilderLogin.Upsert: its own ensures only says when it succeeds. What it writes is stated in BuilderLogin.UpsertSetsEntry.
- ImageTag.Tag: the promise that completed tags name copies of the source is weakened for the case where the failing tag repeats an earlier one, because the failed Delete-and-Create may have removed it.
- ContentSync.ServerTransport: the inner check that the CA file is non-empty (agent_linux.go:63) is always true at that point, so no separate case exists.

## Findings

| source | as written | input that shows it | evidently intended | confidence | as-written member | corrected member |
|---|---|---|---|---|---|---|
| pkg/client/builder/login.go:60 | The existing secret's decoded config is updated by writing into its `Auths` map, which is nil when the secret has no config key or its JSON has no "auths"; the write panics. | An existing secret in the namespace, named for docker config, with empty data. | Start from an empty auths map (and an empty data map for a secret with none) and store the server's entry. | not executed | BuilderLogin.UpsertAsWrittenPanics | BuilderLogin.UpsertSetsEntry |
| pkg/client/image/spec.go:22-23 | The debug log reads `status.Image` before the status error is checked; when the call fails the response is nil and the read panics. | Any image for which the ImageStatus call returns an error. | Check the error first, then fall back to normalising the name. | not executed | RefSpec.RefSpecAsWrittenPanics | RefSpec.RefSpecShape |
| pkg/client/image/spec.go:33 | When the image is not an ID and its name does not parse, the function returns neither a reference nor an error. | The image "UPPER" with no stored image of that ID. | Return the parse error. | not executed | RefSpec.RefSpecAsWrittenAnswersNothing | RefSpec.RefSpec |
