# The quarks-secret operator, modelled and proved

A quarks secret asks the operator for a Kubernetes secret: a password, a key, a
certificate, a docker registry document, a rendered template, or a copy of
another secret. Five controllers work on the same objects and talk to each other
only through three-valued status flags, labels, annotations and watch predicates.
This project models them twice.

**As a protocol.** `Operator.dfy` is a state machine over any number of quarks
secrets. Every object keeps all its versions; a read returns some version that is
not older than an event already delivered; an update goes through only if nobody
wrote since the read; a status write stores only the status; a write that changes
nothing makes no event; each controller has a queue per key with a dirty mark and
one delayed requeue. One step is one API call, one event, one queue operation, one
tick of the clock or one edit from outside, and everything the code does not
control (which version a read shows, what fails, what the user edits, when a timer
fires) is an argument of the step. The theorems about it hold for every run, that
is, for every interleaving:

- `LostRotation`: a secret that is to be generated again is never forgotten, and
  exactly which steps make it forgotten.
- `Forgetting`: the same for a quarks secret that was never generated or whose spec
  changed, with what "forgotten" means: no schedule starts a pass.
- `FreshAcknowledgement`: `Generated` turns true only over values generated after
  the rotation.
- `MeltdownRate`: how close recorded generations can be.
- `Pairing`, `KeyHandoff`, `SigningRun`: when a certificate and its private key belong
  together, that the key is never lost between two calls, and that the hand-over does
  come to its end.
- `UserSecrets`: a user's own secret is not overwritten, and exactly when it is protected.
- `MetadataEdits`, `Watches`: label and annotation edits never start a generation, and
  every other edit does; what each watch lets through.
- `PassEnds`: how each pass ends, and that one that fails comes back.
- `Quiescence`, `CopyLoop`: after one rotation everything comes to rest; and exactly when
  the copy controller does by itself.
- `CopyFreshness`: when `Copied=true` is stored over copies of an older version, and what
  ends that.

**As code against an API server.** `Api.dfy` is the server as one reconciler sees
it while nobody else writes, with any call free to be refused or to lose its
answer. The reconcilers are methods with the loops, early returns and writes of the
source, proved against specifications: the merge under `CreateOrUpdate` (`Mutate`),
the copy pass (`CopyReconciler` against `CopyPass`), the rotation (`Rotation`), the
hand-over of a certificate (`Signing`), the metadata pass (`Metadata`), and the
generation pass with its references and its error classes (`References`, `Products`,
`Credentials`, `Certificates`, `Generation`). `Contents` says entry by entry what such a
pass stores, and that the state machine takes the same entries for generated;
`SigningJourney` runs all passes of a certificate in a row. `DeepCopy` works on the
heap, with maps, slices and pointers as objects. `DockerConfig`, with readers of
JSON (RFC 8259) and base64 (section 4 of RFC 4648) written from the standards, is
about the printed registry document.

Where the steps of the state machine come from:

| in `Operator.dfy` | source |
|---|---|
| `FetchQuarksSecret`, `GenerationNext`, `Acknowledge` | pkg/kube/controllers/quarkssecret/quarkssecret_reconciler.go:101-207 |
| `CheckExisting`, `StoreSecret` | pkg/kube/controllers/quarkssecret/quarkssecret_reconciler.go:212-288 |
| `IsWanted`, `GeneratedEntries`, `Producible` | pkg/kube/controllers/quarkssecret/generator.go:18-175, pkg/kube/controllers/quarkssecret/certificates.go:58-144 |
| `CreateCsr` | pkg/kube/controllers/quarkssecret/certificates.go:211-253 |
| `CsrNext`, `FetchCsr`, `Approve`, `CertificateData`, `StoreCertificate` | pkg/kube/controllers/quarkssecret/certificatesigningrequest_reconciler.go:50-243 |
| `CopyNext` | pkg/kube/controllers/quarkssecret/copy_reconciler.go:51-92 |
| `MetadataNext` | pkg/kube/controllers/quarkssecret/quarkssecret_secretmeta_reconciler.go:43-110 |
| `Rotate` in `PartNext` | pkg/kube/controllers/quarkssecret/secret_rotation_reconciler.go:73-95 |
| `Delivered`, `Passes` and the watches in `Types.dfy` | pkg/kube/controllers/quarkssecret/quarkssecret_controller.go:45-93, pkg/kube/controllers/quarkssecret/copy_controller.go:44-82, pkg/kube/controllers/quarkssecret/quarkssecret_secretmeta_controller.go:41-58 |

## What the proofs found

- A status write of the generation controller that fails for another reason than a
  version conflict is only logged, and with it the rotation is lost
  (`LostRotation.OneFailedWriteLosesARotation`). So does a meltdown with a requeue
  delay of zero, since controller-runtime takes a zero delay for no requeue. It stays
  lost until the next write of the quarks secret, whatever else goes on
  (`LostRotation.GoneForGood`, `LostRotation.GoneUntilNextVersion`).
- With an unset flag less is needed. An edit during the first pass makes its status write
  a conflict, which is only logged, and the watch drops the event of the edit, since the
  old object was not generated: nothing fails, and the new spec is never generated
  (`Forgetting.FirstAcknowledgementConflicts`). However often the spec is edited
  afterwards, only a rotation helps (`Forgetting.OnlyARotationHelps`). The watch also drops
  an edit whose event is merged with that of the acknowledgement before it
  (`Forgetting.MergedEventsAreDropped`). `Forgetting.ForgottenExactlyBy` lists all the ways.
- A copy pass stores `Copied=true` under a version check on the quarks secret, but what
  it copied is another object. If the metadata pass writes the secret between the copies
  and the mark, and finds the flag already cleared, everything comes to rest with the mark
  set and the copies old (`CopyFreshness.QuietAndStale`). They stay so until the next
  generation, the next metadata pass that writes, or a user's version of the source
  (`CopyFreshness.StaleUntilReopened`).
- A copy pass writes `Copied=false` and then true. Unless the flag is false to begin
  with, the first write passes the controller's own watch, and the controller can go
  round for ever. It comes to rest on every schedule exactly when the pass starts from
  `Copied=false` (`CopyLoop.ComesToRestExactlyFromFalse`); from an unset or a true flag
  only merged events stop it (`CopyLoop.MergedEventsStopIt`). A change of a user secret
  starts such a pass.
- A certificate secret holds a matching key exactly when the CSR pass read the
  version of the key secret that was written for the request
  (`Pairing.PairedExactlyWhen`). A generation that runs while the request exists
  writes a new key and keeps the old request, and breaks this. The same condition decides
  whether the key of the request is still there after the key secret is deleted, with what
  the pass had to store in place (`Pairing.KeyKeptExactlyWhen`).
- The key secret is deleted before the request. After a failure in between, every pass
  queues the request again and changes nothing, until a generation stores a new key
  secret (`Signing.ReconcileWithoutKey`).
- The metadata pass compares a made map with a read one, and an empty map reads as nil.
  So it finds a secret in sync exactly when neither labels nor annotations are empty
  (`Metadata.SyncIsStable`); otherwise it clears `Copied` each time it runs.
- A check for a user's secret whose read fails, or is as old as before that secret, lets
  the pass overwrite it: `UserSecrets.OneBadReadOverwrites` is such a run from the start.
  The secret is protected from its creation on exactly when no pass is then past its check
  with nothing stored since its read, and no such check is made later
  (`UserSecrets.ProtectedExactlyWhileChecked`). Checks made before that, by passes that have
  ended, do no harm.
- The registry document is a format string without escaping. It reads back exactly
  when no field holds a character that JSON has to escape
  (`DockerConfig.RoundTripExactlyWhenClean`), and the credentials split back exactly
  when the username has no colon (`DockerConfig.AuthGivesCredentialsBack`).
- A comment in the rotation reconciler (line 82) says that it skips secrets that
  have not yet been generated. The code skips only `Generated=false`; an unset flag
  is reset like a true one. The model follows the code.

## Model

| member | source | states |
|---|---|---|
| Mutate.SecretObject.Mutate | pkg/kube/util/mutate/mutate.go:28-45 | for every order of the map, the early-exit loop takes over the whole string data exactly when some entry differs from the stored data |
| Mutate.StringDataTakesEffect | pkg/kube/util/mutate/mutate.go:33-42 | taking over string data only on a difference stores the same as always overlaying it, and it is taken over exactly when the stored data changes |
| Mutate.MergeIsIdempotent | pkg/kube/util/mutate/mutate.go:28-45 | merging a second time changes nothing, whatever was stored |
| Mutate.DataOnlyOnCreation | pkg/kube/util/mutate/mutate.go:30-43 | plain data reaches a secret only when it is created |
| Mutate.MergeFieldByField | pkg/kube/util/mutate/mutate.go:28-45 | labels and annotations become the wanted ones; wanted text replaces entries, every other entry stays |
| Mutate.GeneratedFieldByField | pkg/kube/controllers/quarkssecret/quarkssecret_reconciler.go:262-286 | a generated secret has the labels and annotations of the spec, none for basic-auth and docker secrets, the generated kind, and the new entries over the stored ones |
| Mutate.CertificateFieldByField | pkg/kube/controllers/quarkssecret/certificatesigningrequest_reconciler.go:125-139 | a handed-over secret has new data only; its labels and annotations stay, and a new one gets the generated kind |
| Api.ApiServer.CreateOrUpdate | pkg/kube/controllers/quarkssecret/quarkssecret_reconciler.go:278-286 | the stored secret becomes the merge result, one write is sent exactly when that changes something, and a failure leaves it either old or merged |
| Api.ApiServer.CreateOrUpdateTwice | pkg/kube/controllers/quarkssecret/quarkssecret_reconciler.go:278-286 | the second time nothing is sent |
| CopyPass.HandleAllOutcome | pkg/kube/controllers/quarkssecret/copy_reconciler.go:94-136 | the loop over any list of any source, duplicates and the source itself included, leaves every opted-in target with labels and annotations of the source and copy-of, with the source's data if it is a plain secret or was absent and its own data otherwise, and every other secret as it was |
| CopyPass.CopiesFieldByField | pkg/kube/controllers/quarkssecret/copy_reconciler.go:105-135 | every opted-in target gets the labels and annotations of the source, the copy-of annotation with namespace and name of the source, and its data unless it was there under a quarks secret; nothing else changes |
| CopyPass.OptedInExactly | pkg/kube/controllers/quarkssecret/copy_reconciler.go:151-223 | a target takes part under the copy-type quarks secret of the same name that names the source, or without such a quarks secret if it names the source itself |
| CopyPass.ClassifyIsStable | pkg/kube/controllers/quarkssecret/copy_reconciler.go:151-213 | the writes of a pass change no target's opt-in |
| CopyPass.SourceStaysCopyable | pkg/kube/controllers/quarkssecret/copy_reconciler.go:94-113 | a source that is a target itself gives the same copies after any part of the pass |
| CopyPass.PassFrame | pkg/kube/controllers/quarkssecret/copy_reconciler.go:94-213 | a pass changes listed, opted-in targets only, and for a source that is not a copy itself only in other namespaces; it never enlarges the opted-in set, deletes nothing, and creates a secret only under a copy-type quarks secret |
| CopyPass.RerunCompletes | pkg/kube/controllers/quarkssecret/copy_reconciler.go:94-136 | a pass over the whole list after one that stopped at any entry leaves what one clean pass leaves |
| CopyReconciler.GetSourceSecret | pkg/kube/controllers/quarkssecret/copy_reconciler.go:139-148 | the stored source secret, or an error |
| CopyReconciler.ValidateTargetNamespace | pkg/kube/controllers/quarkssecret/copy_reconciler.go:151-223 | the two reads and their branches decide the opt-in as classified, and an owner comes back exactly for targets under a quarks secret |
| CopyReconciler.UpdateCopySecret | pkg/kube/controllers/quarkssecret/copy_reconciler.go:244-266 | an update without a version replaces the whole secret or changes nothing |
| CopyReconciler.CreateUpdateCopySecret | pkg/kube/controllers/quarkssecret/copy_reconciler.go:225-241 | the target is merged or, on failure, possibly left alone |
| CopyReconciler.HandleEntry | pkg/kube/controllers/quarkssecret/copy_reconciler.go:95-132 | success handles the entry; failure leaves the secrets untouched or with this entry handled |
| CopyReconciler.HandleQuarksSecretCopies | pkg/kube/controllers/quarkssecret/copy_reconciler.go:94-136 | failing at entry k leaves the entries before k handled and the later ones untouched; a missing source secret changes nothing |
| CopyReconciler.Reconcile | pkg/kube/controllers/quarkssecret/copy_reconciler.go:51-92 | the flag is newly set only after every entry was handled; a pass that fails after clearing it leaves it clear; nothing else of any status changes |
| CopyReconciler.ReconcileAgain | pkg/kube/controllers/quarkssecret/copy_reconciler.go:51-92 | wherever the first pass failed, a second one that succeeds leaves the secrets of one clean pass |
| Rotation.RotateAllAt | pkg/kube/controllers/quarkssecret/secret_rotation_reconciler.go:73-95 | the loop resets exactly the listed quarks secrets |
| Rotation.RotationFieldByField | pkg/kube/controllers/quarkssecret/secret_rotation_reconciler.go:73-95 | the generated flag of the listed quarks secrets becomes false and no other field of any quarks secret changes |
| Rotation.OnlyTheSetMatters | pkg/kube/controllers/quarkssecret/secret_rotation_reconciler.go:73-95 | order and duplicates of the names do not matter |
| Rotation.RotatingTheRest | pkg/kube/controllers/quarkssecret/secret_rotation_reconciler.go:73-95 | rotating after any partial rotation gives the full one |
| Rotation.RotateName | pkg/kube/controllers/quarkssecret/secret_rotation_reconciler.go:74-94 | a failed read skips the name, a flag that is already false is left, anything else is one status write |
| Rotation.RotateNames | pkg/kube/controllers/quarkssecret/secret_rotation_reconciler.go:73-95 | the names before the failing one are rotated but for those whose read failed, and each change is one status write |
| Rotation.Rotate | pkg/kube/controllers/quarkssecret/secret_rotation_reconciler.go:73-95 | each listed quarks secret is status-written at most once, and exactly those that change |
| Rotation.RotateAgain | pkg/kube/controllers/quarkssecret/secret_rotation_reconciler.go:73-95 | a second run without failures gives the store of one clean rotation |
| References.WrappingKeepsTheCause | pkg/kube/controllers/quarkssecret/quarkssecret_reconciler.go:69-94 | both not-ready classes show through any depth of wrapping, and no other error gets them |
| References.ReadEntry | pkg/kube/controllers/quarkssecret/generator.go:107-125 | a missing secret is "not ready", a missing entry and a failed call are not |
| References.RenderSecret | pkg/kube/controllers/quarkssecret/templated_config.go:23-60 | for every order of the references: success means all resolved and rendered with their values; "not ready" only if a secret is missing, and surely if that is all that is wrong |
| Products.SkipCreation | pkg/kube/controllers/quarkssecret/quarkssecret_reconciler.go:212-240 | true exactly for an existing secret without the generated kind |
| Products.CreateSecrets | pkg/kube/controllers/quarkssecret/quarkssecret_reconciler.go:242-288 | the wanted secret is merged into its destination, or the user's secret is left alone |
| Contents.DestinationExactly | pkg/kube/controllers/quarkssecret/certificates.go:81-85 | the key of a request to the cluster goes to its own secret and everything else to the secret of the spec, in both models |
| Contents.StoredExactly | pkg/kube/controllers/quarkssecret/quarkssecret_reconciler.go:262-286 | one secret is written, with the new entries over the old ones, labels, annotations and kind |
| Contents.UserSecretExactly | pkg/kube/controllers/quarkssecret/quarkssecret_reconciler.go:223-239 | left to a user is a secret under the name of the spec without the generated kind |
| Contents.PasswordContents | pkg/kube/controllers/quarkssecret/generator.go:18-35 | one password under its entry |
| Contents.KeyContents | pkg/kube/controllers/quarkssecret/generator.go:37-80 | private and public key of one generated key, and for SSH its fingerprint |
| Contents.BasicAuthContents | pkg/kube/controllers/quarkssecret/generator.go:82-102 | the given username with a made password, or both made in that order |
| Contents.DockerContents | pkg/kube/controllers/quarkssecret/generator.go:104-175 | the printed document of the referenced credentials, with made ones for those that are empty |
| Contents.TemplatedContents | pkg/kube/controllers/quarkssecret/templated_config.go:23-79 | every value comes from the entry that its own reference names |
| Contents.CertificateContents | pkg/kube/controllers/quarkssecret/certificates.go:125-141 | certificate, key, the spec's own `is_ca`, and the certificate of the authority if there is one |
| Contents.TLSContents | pkg/kube/controllers/quarkssecret/certificates.go:114-141 | certificate and key under the names of TLS secrets, and the certificate of the authority |
| Contents.KeySecretContents | pkg/kube/controllers/quarkssecret/certificates.go:80-92 | the key that was made with the request, and `is_ca` of the spec |
| Contents.RequestExactly | pkg/kube/controllers/quarkssecret/certificates.go:148-208 | common name or address, names, no authority and no `isCA` for the cluster, and otherwise certificate and key from the entries that the two references name |
| Contents.NamesOfAService | pkg/kube/controllers/quarkssecret/certificates.go:37-46 | the seven names of a service and its external addresses, after those of the services before it |
| Contents.AddressOfTheServices | pkg/kube/controllers/quarkssecret/certificates.go:33-35 | the first cluster address that is not empty, or none |
| Contents.NeedsMetExactly | pkg/kube/controllers/quarkssecret/generator.go:107-149 | which references of each type have to resolve, those without a name excepted |
| Contents.PossibleExactly | pkg/kube/controllers/quarkssecret/quarkssecret_reconciler.go:128-192 | the reasons for which a request cannot be met, all of them |
| Contents.NotReadyExactly | pkg/kube/controllers/quarkssecret/quarkssecret_reconciler.go:150-188 | which class of errors each type answers with the short requeue, through any wrapping |
| Contents.GeneratedEntriesMatch | pkg/kube/controllers/quarkssecret/generator.go:18-175 | the entries that the state machine takes for generated are those that a pass makes |
| Contents.ProducibleExactly | pkg/kube/controllers/quarkssecret/certificates.go:49-72 | the state machine lets a pass produce exactly for the specs that can be met at all |
| Contents.HasReferencesExactly | pkg/kube/controllers/quarkssecret/generator.go:107-149 | the state machine lets a pass find a secret missing exactly for the specs that refer to one |
| Credentials.CreatePasswordSecret | pkg/kube/controllers/quarkssecret/generator.go:18-35 | what is stored is one generated password, or nothing is |
| Credentials.CreateKeySecret | pkg/kube/controllers/quarkssecret/generator.go:37-80 | what is stored are the parts of one generated key, or nothing is |
| Credentials.CreateBasicAuthSecret | pkg/kube/controllers/quarkssecret/generator.go:82-102 | the given or else generated username, and a generated password |
| Credentials.DockerCredentials | pkg/kube/controllers/quarkssecret/generator.go:104-152 | username and password are the referenced texts or, where those are absent or empty, generated ones; any unresolved reference fails with its class |
| Credentials.CreateDockerConfigJSON | pkg/kube/controllers/quarkssecret/generator.go:104-175 | stores the document of exactly those credentials, and nothing unless all references resolve |
| Credentials.CreateTemplatedConfigSecret | pkg/kube/controllers/quarkssecret/templated_config.go:62-79 | stores the rendered values, and nothing unless all references resolve |
| Certificates.ReadServices | pkg/kube/controllers/quarkssecret/certificates.go:22-47 | the names of all services in order after those of the spec, and the first address that is not empty |
| Certificates.ReadAuthority | pkg/kube/controllers/quarkssecret/certificates.go:165-202 | certificate and key of the authority, absent entries read as empty; a missing secret is "not ready" |
| Certificates.PrepareRequest | pkg/kube/controllers/quarkssecret/certificates.go:21-72 | the generation request with default signer, service names and the EKS address, or a failure whose class says whether a secret is missing |
| Certificates.CreateCertificateSigningRequest | pkg/kube/controllers/quarkssecret/certificates.go:211-253 | an existing request is left alone; a new one is the request object, whose fields are those of `SigningJourney.RequestLeadsBack` |
| Certificates.CreateClusterSigned | pkg/kube/controllers/quarkssecret/certificates.go:74-99 | a request is created only once its own key is stored or left to a user secret, and success means that there is one |
| SigningJourney.RequestLeadsBack | pkg/kube/controllers/quarkssecret/certificates.go:211-234 | a new request names the secret of the spec, the namespace and the name of its quarks secret where the CSR controller looks for them, and leads it to the secret in which the key was stored |
| SigningJourney.IssueCertificate | pkg/kube/controllers/quarkssecret/certificatesigningrequest_reconciler.go:71-163 | generation, approval, issue and hand-over: in the end the secret of the spec holds root certificate, issued certificate, the key made for it and `is_ca`; key secret and request are gone, the quarks secret is acknowledged, and nothing else changed |
| Certificates.CreateLocallySigned | pkg/kube/controllers/quarkssecret/certificates.go:100-141 | what is stored is one generated certificate with its key, and the authority's certificate if there is one |
| Certificates.CreateCertificateSecret | pkg/kube/controllers/quarkssecret/certificates.go:21-145 | both of the above, and nothing is stored unless all references resolve |
| Generation.CreateByType | pkg/kube/controllers/quarkssecret/quarkssecret_reconciler.go:128-192 | for every type: what is stored is a product of what was generated and resolved, and with working calls it succeeds exactly when the request is possible |
| Generation.UpdateStatus | pkg/kube/controllers/quarkssecret/quarkssecret_reconciler.go:197-207 | the acknowledged status is stored, or nothing when the write fails |
| Generation.AcknowledgementFieldByField | pkg/kube/controllers/quarkssecret/quarkssecret_reconciler.go:197-207 | generated is set, copied is cleared and the time is recorded, and no other field changes |
| Generation.MeltdownExactly | pkg/kube/controllers/quarkssecret/quarkssecret_reconciler.go:122-125 | a pass waits exactly until the duration since the last acknowledgement is over |
| Generation.ReconcileExisting | pkg/kube/controllers/quarkssecret/quarkssecret_reconciler.go:127-195 | the same as below, once the quarks secret was read |
| Generation.Reconcile | pkg/kube/controllers/quarkssecret/quarkssecret_reconciler.go:101-207 | an unresolved reference leaves secrets, requests and status unchanged; the 5-second requeue comes only when a secret is missing, and surely when that is all that is wrong; when calls and generator work the pass finishes exactly when the request is possible, and a user's secret is kept; in meltdown nothing happens; only a finished pass touches the status |
| Signing.IsApproved | pkg/kube/controllers/quarkssecret/certificatesigningrequest_reconciler.go:246-254 | true exactly when the approval is among the conditions |
| Signing.ApproveRequest | pkg/kube/controllers/quarkssecret/certificatesigningrequest_reconciler.go:177-203 | success means approved; an approved request is not written, and no other condition is lost |
| Signing.GetClusterRootCA | pkg/kube/controllers/quarkssecret/certificatesigningrequest_reconciler.go:256-282 | the entry of the first service account token, and nothing if that token has none |
| Signing.CreateSecret | pkg/kube/controllers/quarkssecret/certificatesigningrequest_reconciler.go:206-221 | the whole data is replaced, other labels than on creation are kept |
| Signing.HandOverKeepsKey | pkg/kube/controllers/quarkssecret/certificatesigningrequest_reconciler.go:145-163 | in every state a pass can stop in, the key is in the key secret or in the certificate secret, and the request is gone only once the certificate is stored |
| Signing.HandOverEntryByEntry | pkg/kube/controllers/quarkssecret/certificatesigningrequest_reconciler.go:125-163 | a finished hand-over leaves root certificate, issued certificate, key and `is_ca` in the secret that the annotations name, and of everything else only key secret and request are gone |
| Signing.ReconcileIssued | pkg/kube/controllers/quarkssecret/certificatesigningrequest_reconciler.go:71-163 | the pass stops in one of those states; what it stores has the root certificate of the first service account token, and it stores nothing without the quarks secret; it completes when all calls work and that is there; without the key secret it changes nothing and does not finish |
| Signing.ReconcileWithoutKey | pkg/kube/controllers/quarkssecret/certificatesigningrequest_reconciler.go:96-163 | without the key secret any number of passes changes nothing and never finishes, and each one that can read queues the request again |
| Signing.Reconcile | pkg/kube/controllers/quarkssecret/certificatesigningrequest_reconciler.go:50-174 | the same for an issued request, approval for any other, and nothing for one without its annotations |
| Metadata.SyncIsStable | pkg/kube/controllers/quarkssecret/quarkssecret_secretmeta_reconciler.go:70-87 | syncing keeps data and kind; a synced secret is found in sync exactly when its labels and the annotations of the spec are not empty |
| Metadata.SyncedFieldByField | pkg/kube/controllers/quarkssecret/quarkssecret_secretmeta_reconciler.go:70-87 | annotations and labels become exactly those of the spec, so removed ones go, and only the stored kind label stays |
| Metadata.InSyncExactly | pkg/kube/controllers/quarkssecret/quarkssecret_secretmeta_reconciler.go:73-85 | nothing is to be done exactly if a sync would change nothing and neither map is empty |
| Metadata.Reconcile | pkg/kube/controllers/quarkssecret/quarkssecret_secretmeta_reconciler.go:43-110 | the secret is left or synced, `Copied` is cleared only after that and only if it was not found in sync, and no other field of any quarks secret changes |
| Base64.DecodeEncode | pkg/kube/controllers/quarkssecret/generator.go:154 | decoding what was encoded gives the text back |
| Base64.DigitsAreTheAlphabet | pkg/kube/controllers/quarkssecret/generator.go:154 | the digits are the alphabet of table 1 of RFC 4648 |
| Base64.TestVectors | pkg/kube/controllers/quarkssecret/generator.go:154 | the groups of the test vectors in section 10 of RFC 4648 |
| Json.OnlyCleanTextReadsBack | pkg/kube/controllers/quarkssecret/generator.go:155-161 | with all escapes of RFC 8259 resolved, text that was put between quotation marks as it is reads back as itself only if it is clean |
| Json.QuotedText | pkg/kube/controllers/quarkssecret/generator.go:155-161 | text put between quotation marks reads back exactly when it is clean |
| DockerConfig.ReadTextMembers | pkg/kube/controllers/quarkssecret/generator.go:155-161 | a list of members printed that way reads back exactly when all values are clean |
| DockerConfig.RoundTripExactlyWhenClean | pkg/kube/controllers/quarkssecret/generator.go:154-161 | parsing the printed document gives registry, username, password, email and the encoded `username:password` back, each under its name, exactly when no field has a quotation mark, a backslash or a control character |
| DockerConfig.AuthGivesCredentialsBack | pkg/kube/controllers/quarkssecret/generator.go:154 | auth decodes to username:password, which splits back exactly when the username has no colon |
| DockerConfig.CredentialsAreUnique | pkg/kube/controllers/quarkssecret/generator.go:154 | no other pair with a colon-free username has the same credentials |
| DeepCopy.CopySlice | pkg/kube/apis/quarkssecret/v1alpha1/zz_generated.deepcopy.go:36-40 | a new array with the same elements and no spare room |
| DeepCopy.CopyDict | pkg/kube/apis/quarkssecret/v1alpha1/zz_generated.deepcopy.go:177-183 | a new map with the same entries, in any order of the loop |
| DeepCopy.DeepCopyObject | pkg/kube/apis/quarkssecret/v1alpha1/zz_generated.deepcopy.go:34-217 | an equal object whose maps, slices and cells are all new, but for the cell of the copied flag |
| DeepCopy.Append | pkg/kube/controllers/quarkssecret/certificates.go:37-46 | append in place or in a new array gives the old elements and the new ones |
| DeepCopy.AppendServiceNames | pkg/kube/controllers/quarkssecret/certificates.go:22-47 | the names of the spec followed by those of all services, in the object itself |
| DeepCopy.LabelGenerated | pkg/kube/controllers/quarkssecret/quarkssecret_reconciler.go:262-272 | the labels of the secret are the map of the spec itself with the kind label, or a new map for basic-auth and docker secrets |
| DeepCopy.EditInPlace | pkg/kube/controllers/quarkssecret/quarkssecret_reconciler.go:262-272 | the kind label ends up in the map of the spec, but not for basic-auth and docker secrets; a certificate without signer gets the local one; and the four annotations of a signing request end up in the annotations of the object |
| DeepCopy.GenerateOn | pkg/kube/controllers/quarkssecret/certificates.go:21-51 | in a pass that does not leave the secret to a user, the object it read gets the names of all services appended once if it is a certificate, the kind label in its own map if its type takes the labels of the spec, and keeps its service references; a pass that skips creation sets no label and is not covered |
| DeepCopy.ReconcileCached | pkg/kube/apis/quarkssecret/v1alpha1/zz_generated.deepcopy.go:101-115 | a pass on a copy writes to no object that existed before |
| DeepCopy.ReconcileManyTimes | pkg/kube/controllers/quarkssecret/certificates.go:37-46 | over any number of passes every request has the same names: they do not accumulate |
| DeepCopy.ReconcileInPlaceTwice | pkg/kube/controllers/quarkssecret/certificates.go:37-46 | without the copy the names of a certificate would come twice and the label would leak into the cached spec |
| DeepCopy.EveryServiceAddsNames | pkg/kube/controllers/quarkssecret/certificates.go:37-46 | every service adds at least seven names |
| Watches.GenerationWatchExactly | pkg/kube/controllers/quarkssecret/quarkssecret_controller.go:63-92 | an event passes exactly if the new object is to be generated again, or the old one was generated and the spec differs in more than labels and annotations |
| Watches.MetadataWatchExactly | pkg/kube/controllers/quarkssecret/quarkssecret_secretmeta_controller.go:41-58 | an event passes exactly if labels or annotations of the spec differ |
| Watches.CopyWatchExactly | pkg/kube/controllers/quarkssecret/copy_controller.go:49-58 | an event passes exactly if the flag is unset or false |
| Watches.SecretWatchExactly | pkg/kube/controllers/quarkssecret/copy_controller.go:70-81 | an event passes exactly if labels, annotations or data differ and the new secret is not of the generated kind |
| Watches.DeliveredExactly | pkg/kube/controllers/quarkssecret/quarkssecret_controller.go:45-93 | what each of the three controllers makes of an event, alone or merged with those before it |
| Watches.SourceChangeQueuesExactly | pkg/kube/controllers/quarkssecret/copy_controller.go:65-82 | a change of the source queues the copies exactly if the new version is a user's |
| Watches.EditQueuesGenerationExactlyWhen | pkg/kube/controllers/quarkssecret/quarkssecret_controller.go:67-81 | from rest, an edit and its event queue a generation exactly if the object seen last was generated and more than labels and annotations changed |
| Watches.EditsAreNoticed | pkg/kube/controllers/quarkssecret/quarkssecret_controller.go:67-81 | with the acknowledgement seen, every edit of type, request, name or copies queues a generation |
| Watches.EditQueuesMetadataExactlyWhen | pkg/kube/controllers/quarkssecret/quarkssecret_secretmeta_controller.go:41-58 | an edit and its event queue the metadata pass exactly if it changes one of the two maps |
| PassEnds.RequeueExactly | pkg/kube/controllers/quarkssecret/quarkssecret_reconciler.go:122-125 | of two delayed requeues the earlier one counts, and a delay of zero is none |
| PassEnds.NotReadyComesBack | pkg/kube/controllers/quarkssecret/quarkssecret_reconciler.go:150-156 | a pass that finds a secret missing changes nothing and is tried again after five seconds or earlier |
| PassEnds.GenerationPassEnds | pkg/kube/controllers/quarkssecret/quarkssecret_reconciler.go:101-207 | a generation pass ends without a way back only in an acknowledgement, for the copy type, in a meltdown without delay or in a crash |
| PassEnds.CopyPassEnds | pkg/kube/controllers/quarkssecret/copy_reconciler.go:73-83 | a copy pass that does not get to its mark, but for a crash, is tried again |
| PassEnds.MetadataPassEnds | pkg/kube/controllers/quarkssecret/quarkssecret_secretmeta_reconciler.go:51-110 | a metadata pass ends in sync, with the flag cleared, or is tried again |
| PassEnds.CsrPassEnds | pkg/kube/controllers/quarkssecret/certificatesigningrequest_reconciler.go:50-174 | a CSR pass ends without request, approved, without root certificate, with the request deleted, or is tried again |
| Effects.CopyEffect | pkg/kube/controllers/quarkssecret/copy_reconciler.go:73-92 | the copy controller adds only versions that differ in the copied flag, whatever it read |
| Effects.MetadataEffect | pkg/kube/controllers/quarkssecret/quarkssecret_secretmeta_reconciler.go:65-110 | the metadata controller adds only versions that differ in the copied flag, and writes a secret only in its update call |
| Effects.MetadataWriteShape | pkg/kube/controllers/quarkssecret/quarkssecret_secretmeta_reconciler.go:65-92 | what it writes is its target secret, with the labels and annotations of the spec it read over the data and kind stored last |
| Effects.StoreExactly | pkg/kube/controllers/quarkssecret/quarkssecret_reconciler.go:278-286 | the secret is written exactly if that changes what was read, and goes through exactly if nobody wrote since or it was and is absent; otherwise the pass is tried again |
| Effects.KeySecretHasOneOwner | pkg/kube/controllers/quarkssecret/certificates.go:81-94 | a key secret is written by the controllers of its own quarks secret only |
| LostRotation.LossIsComplete | pkg/kube/controllers/quarkssecret/quarkssecret_reconciler.go:122-125 | a losing step leaves nothing queued, delayed, running or undelivered |
| LostRotation.GoneUntilNextVersion | pkg/kube/controllers/quarkssecret/quarkssecret_controller.go:63-92 | a lost rotation stays lost over a step if and only if the step stores no new version of the quarks secret; a new version that is still to be generated brings it back through the watch |
| LostRotation.GoneForGood | pkg/kube/controllers/quarkssecret/quarkssecret_controller.go:63-92 | over every run in which the quarks secret gets no new version, a lost rotation stays lost and no pass starts |
| LostRotation.LostExactlyBy | pkg/kube/controllers/quarkssecret/quarkssecret_reconciler.go:101-207 | in every run so far without loss, a step loses a rotation if and only if it is a crash, a status write failing other than by conflict, or a meltdown with a zero delay, with nothing else pending |
| LostRotation.NoLostRotation | pkg/kube/controllers/quarkssecret/quarkssecret_controller.go:63-92 | in every reachable state a secret stored as not generated is queued, delayed, being processed, or has an undelivered event that the watch accepts |
| LostRotation.OneFailedWriteLosesARotation | pkg/kube/controllers/quarkssecret/quarkssecret_reconciler.go:203-206 | a run from the start in which one failed status write loses the rotation, with nothing of it left |
| Forgetting.NothingPendingExactlyWhen | pkg/kube/controllers/quarkssecret/quarkssecret_controller.go:45-93 | nothing is queued, delayed, running or still to pass the watch if and only if no schedule whatever starts a pass without a new version of the quarks secret |
| Forgetting.ForgottenExactlyBy | pkg/kube/controllers/quarkssecret/quarkssecret_reconciler.go:101-207 | in every run, a step leaves a quarks secret that was rotated, never generated or edited since its last acknowledgement with nothing pending if and only if it is a crash, a failed or conflicting status write, a pass ended by a meltdown with zero delay or by the copy type, an event dropped by the watch, or an edit away from the copy type, with nothing else pending |
| Forgetting.ForgottenUntil | pkg/kube/controllers/quarkssecret/quarkssecret_controller.go:63-92 | it stays forgotten over a step if and only if the step stores no version that passes the watch against the last one or takes the need away |
| Forgetting.OnlyARotationHelps | pkg/kube/controllers/quarkssecret/quarkssecret_controller.go:63-92 | with the flag unset it stays forgotten over every run without a rotation, whatever the edits |
| Forgetting.FirstAcknowledgementConflicts | pkg/kube/controllers/quarkssecret/quarkssecret_reconciler.go:197-207 | a run from the start, with no failure, in which an edit during the first pass is forgotten |
| Forgetting.MergedEventsAreDropped | pkg/kube/controllers/quarkssecret/quarkssecret_controller.go:67-81 | a run from the start, with no failure, in which an edit merged with the acknowledgement is forgotten |
| FreshAcknowledgement.AcknowledgedBy | pkg/kube/controllers/quarkssecret/quarkssecret_reconciler.go:197-207 | only the generation controller's status write turns the flag from false to true, and only for the version it read |
| FreshAcknowledgement.FreshAcknowledgement | pkg/kube/controllers/quarkssecret/quarkssecret_reconciler.go:109-207 | when the flag turns true, the secret holds values of one generator call made after every earlier version, the rotation included; for docker secrets this is the document, unless both credentials are references |
| MeltdownRate.TimesAreSpaced | pkg/kube/controllers/quarkssecret/quarkssecret_reconciler.go:122-125 | recorded generation times are at least the window apart |
| MeltdownRate.MeltdownBoundsRate | pkg/kube/controllers/quarkssecret/quarkssecret_reconciler.go:122-125 | in every run, n recorded generations within a span take at least n - 1 windows |
| Pairing.PairedExactlyWhen | pkg/kube/controllers/quarkssecret/certificatesigningrequest_reconciler.go:96-150 | in every run, the certificate secret about to be written is paired if and only if the key version read is the one written for the request |
| Pairing.KeyKeptExactlyWhen | pkg/kube/controllers/quarkssecret/certificatesigningrequest_reconciler.go:145-157 | in every run, at any time after a pass had the certificate to write: if that data is in place when the key secret is deleted, the key of the request is kept if and only if the key version read is the one written for the request |
| KeyHandoff.CertificatesArePaired | pkg/kube/controllers/quarkssecret/certificatesigningrequest_reconciler.go:96-163 | if generations start only when no request is around and its deletion was seen, and no CSR pass reads a key secret older than its request's, every certificate secret ever stored holds the key whose request it signs |
| KeyHandoff.KeyIsNeverLost | pkg/kube/controllers/quarkssecret/certificatesigningrequest_reconciler.go:145-163 | under the same hypotheses, with failures between any two calls, from the creation of the request on its key is in the key secret or in the certificate secret |
| SigningRun.TheClusterSigns | pkg/kube/controllers/quarkssecret/certificatesigningrequest_reconciler.go:50-174 | a run from the start, without failures, for every spec that the cluster can sign: it ends with a paired certificate secret and without key secret and request |
| SigningRun.ExistingRequestStays | pkg/kube/controllers/quarkssecret/certificates.go:236-252 | a generation that finds a request leaves it alone and is acknowledged |
| SigningRun.OnlyApprovedAreIssued | pkg/kube/controllers/quarkssecret/certificatesigningrequest_reconciler.go:177-203 | in every run, no request has a certificate without the approval |
| UserSecrets.UserDataIsKept | pkg/kube/controllers/quarkssecret/quarkssecret_reconciler.go:212-259 | in every run from the start, with any number of quarks secrets that can have generated the name before: if no pass is about to write the name when the user's secret is created, and every check from then on reads a user's version, its data changes by the user's edits only and it never counts as generated |
| UserSecrets.CheckDecides | pkg/kube/controllers/quarkssecret/quarkssecret_reconciler.go:246-256 | a check by a quarks secret that wants the name keeps the invariant if and only if its read succeeds and shows a user's secret |
| UserSecrets.ProtectedExactlyWhileChecked | pkg/kube/controllers/quarkssecret/quarkssecret_reconciler.go:212-259 | in every run from the start, every state from the creation of the user's secret on protects it, kind and data, in all its continuations if and only if no pass was about to write it then and every check from then on read a user's secret |
| UserSecrets.OneBadReadOverwrites | pkg/kube/controllers/quarkssecret/quarkssecret_reconciler.go:246-256 | a run from the start in which one failed or outdated read lets a generated password replace the user's |
| UserSecrets.OverwrittenOtherwise | pkg/kube/controllers/quarkssecret/quarkssecret_reconciler.go:278-281 | a pass that got through overwrites the user's entries and takes the secret over |
| MetadataEdits.MetadataEditsStayMetadata | pkg/kube/controllers/quarkssecret/quarkssecret_secretmeta_reconciler.go:65-98 | once generated, even with the event of the acknowledgement still to come, edits of labels and annotations never queue a generation and never change the secret's data or kind |
| MetadataEdits.RestsOnceAcknowledged | pkg/kube/controllers/quarkssecret/quarkssecret_reconciler.go:197-207 | the acknowledgement itself leads to such a state |
| Quiescence.StepAdvances | pkg/kube/controllers/quarkssecret/copy_reconciler.go:73-82 | every step of the two controllers and of all three watches leaves less to do |
| Quiescence.SecretWatchIsSilent | pkg/kube/controllers/quarkssecret/copy_controller.go:65-82 | the copy controller's watch of secrets lets no version of a generated source through |
| Quiescence.NeverStuck | pkg/kube/controllers/quarkssecret/quarkssecret_reconciler.go:122-125 | short of the end some step is possible and brings it nearer |
| Quiescence.NothingLeftIsFinal | pkg/kube/controllers/quarkssecret/copy_controller.go:49-82 | nothing is left to do exactly when all queues are empty and both flags are true |
| Quiescence.QuiescesOnEverySchedule | pkg/kube/controllers/quarkssecret/quarkssecret_reconciler.go:193-207 | after one rotation of a type without references, with a generated source, every schedule makes a bounded number of steps and ends there |
| CopyFreshness.MarkIsStaleExactlyWhen | pkg/kube/controllers/quarkssecret/copy_reconciler.go:73-92 | in every run, for every stored `Copied=true`: the quarks secret did not change since the source was read, and the copies are of an older version if and only if the read was outdated or the source was written between the read and the mark |
| CopyFreshness.WritesAreUnnoticed | pkg/kube/controllers/quarkssecret/quarkssecret_secretmeta_reconciler.go:85-97 | a source secret is written by users, generation, metadata and certificate passes only, and never together with a version of a quarks secret, so the mark's version check does not notice it |
| CopyFreshness.StaleUntilReopened | pkg/kube/controllers/quarkssecret/copy_controller.go:49-82 | from rest with a stale mark: over every run the controller stays at rest and the copies stay stale if and only if no acknowledgement and no metadata mark is stored and no user's version passes the watch of secrets |
| CopyFreshness.QuietAndStale | pkg/kube/controllers/quarkssecret/quarkssecret_secretmeta_reconciler.go:85-98 | a run from the start, without failures or outdated reads, that ends with everything quiet and a stale mark |
| CopyLoop.ComesToRestExactlyFromFalse | pkg/kube/controllers/quarkssecret/copy_controller.go:49-58 | with the key queued and all else quiet, all schedules of the copy controller alone, without failures, are bounded in length if and only if the flag is false |
| CopyLoop.GoesRoundAndRound | pkg/kube/controllers/quarkssecret/copy_reconciler.go:73-92 | from an unset or a true flag there are schedules of any number of rounds, each with two status writes |
| CopyLoop.MergedEventsStopIt | pkg/kube/controllers/quarkssecret/copy_controller.go:49-58 | when both events of a pass are merged the controller comes to rest after it |

## Left out

- Key, certificate and password generation: a generator call returns a fresh token
  or arbitrary text, with the relation "this request was made from this key". The
  random string library is not part of this model.
- Helm rendering: an arbitrary function of templates and values.
- The names and meltdown packages are not part of this model: names of requests and
  key secrets are taken to be injective and to collide with no other name, and the
  window of a time contains every instant from it to, but without, the duration later.
- The real API server, informers, access control and garbage collection: only versions,
  events and queues. Deleting a quarks secret is not a step, so "not found" on it is
  modelled only in the sequential methods.
- Owner references and the type field of a secret: set in memory, read by nothing here
  but the list of owned secrets, whose result is a free argument of the create event.
- The lists behind the watches (owned secrets, quarks secrets of a secret) and the
  namespace predicate: every quarks secret is in a monitored namespace, and a secret
  event reaches the quarks secrets that name the secret.
- In the state machine the search for the cluster's root certificate has a free result; the
  list it goes through is an argument of `Signing.ReconcileIssued`.
- The labels of a signing request, which nothing here reads.
- JSON decoding of the rotation list, logging, events, command line, generated clients.
- Context timeouts and real time, beyond a clock of whole seconds.
- The copies themselves in the state machine: they lie in other namespaces, so there the
  copy controller only writes its flag; what it copies is `CopyPass`.
- The config map watch that triggers a rotation: a rotation is a step. The skip annotation that
  the secret watch of the copy controller looks up is not part of this model.
- `NotCopied`: nothing calls it.
- LostRotation.NoLostRotation: not for copy-type quarks secrets, which the generation
  controller ignores, and not across a restart, whose create events skip quarks secrets
  that already own a secret.
- Forgetting.ForgottenExactlyBy: a crash is followed by no create event, as for
  `LostRotation.NoLostRotation`; a spec whose pass always ends with an error is retried and
  not forgotten.
- CopyFreshness.MarkIsStaleExactlyWhen: the loop over the copies is one step there, and the
  version it names is the oldest one that the reads for the entries showed.
- FreshAcknowledgement.FreshAcknowledgement: for a secret that is not signed by the cluster
  and whose name nobody else writes; otherwise the stored values are not this pass's alone.
- Quiescence.QuiescesOnEverySchedule: loads before an update show the stored secret, since a
  conflict is an API error.
- KeyHandoff.KeyIsNeverLost: no outside edit touches the two secrets; a generation goes on to
  produce a key only when no request exists, no CSR pass is on its way and the CSR controller
  has seen the deletion of the last request; and a CSR pass does not read the key secret in a
  version older than the one written for its request.
- KeyHandoff.CertificatesArePaired: the same hypotheses; without them `Pairing.PairedExactlyWhen`
  says when it holds.
- UserSecrets.ProtectedExactlyWhileChecked: no quarks secret that wants the name is signed by
  the cluster, since such a pass writes the certificate much later and only if the cluster
  issues it. `UserSecrets.UserDataIsKept` covers them.
- UserSecrets.UserDataIsKept: a quarks secret wants the name always or never, as its edits go;
  `SecretLabels` of those that do never claim the generated kind; and when the user's secret is
  created no cluster-signed one of them has ever stored a key secret, of which a later
  pass could read an old version.
- CopyLoop.ComesToRestExactlyFromFalse: the watch of secrets is silent and no one else writes.
- DeepCopy.DeepCopyObject: the embedded structs are fields of one object, and the deep copy of
  the object's own metadata, which is not part of the repository, is taken to copy labels and
  annotations.
- Products.CreateSecrets: version conflicts appear only as refused writes; their interleavings
  are in the state machine.
