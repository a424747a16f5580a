# terraform-provider-ontap: a verified model of the client and the provider mappings

This project models the sequential core of a Terraform provider for NetApp ONTAP. It is written in Dafny, and it proves properties of that model.

**The ONTAP REST client** (`ontap_client_go`):
- `doRequest` sorts responses by status. A 202 starts a job: the client polls the job's self link until the job reports `success` or `failure`.
- The qtree and SVM calls rewrite fields of the records they send and return.

**The provider** (`internal/provider`):
- The `ontap_qtree` and `ontap_svm` resources and data sources copy attributes between Terraform plans or state and the client's wire records.

**How the model stands in for the server.** The server is a finite script of replies, consumed one per HTTP exchange, in the order the client issues them.
- Each client operation is a specification function over that script. It returns an outcome, the replies left over and the requests sent.
- Each operation also has a method that takes the same steps as the Go code. The method is proved equal to its specification function.
- If the script runs out first, the outcome is `Unfinished`; the Go code would still be polling.
- A Go panic is modelled as an explicit `Crashed` outcome. At the provider level it is a `Panicked` effect.

**Wire and provider records.**
- A JSON body is abstract: its raw text plus the document it parses to. A document of another shape decodes to the zero record. Only a malformed document fails to decode.
- `omitempty` is stated with `Emits` predicates over the fields of a record.
- A Terraform string is `NullString` or `StringValue(s)`. Go's zero `types.String{}` is the known empty string, not null.
- A Terraform list is an `Option<seq<…>>`. `None` is a nil slice, and appending nothing to a nil slice leaves it nil.

**Behaviour reproduced as written:**
- The job state `error` keeps polling, with no delay and no bound.
- The SVM data source fills NIS `servers` from the LDAP servers. It never sets NIS `enabled` (stored as `false`) or a route's `gateway` (stored as `""`).
- The SVM resource builds the planned CIFS block but never attaches it to the request.
- Both resources' `Delete` discard the client error. A call that returns, with or without an error, is the `Done` effect: nothing stored and no diagnostic, after which Terraform drops the resource.

## Model

| member | source | states |
|---|---|---|
| Http.ErrorText | ontap_client_go/client.go:71-73 | A 404 error reads `<code>: <message>`. When the code has no colon, splitting the text at its first colon gives back the code and the message. Any other status reads `status: <decimal>, body: <raw>`. A failed job's error is its message. |
| Http.Classify | ontap_client_go/client.go:149-165 | A non-202 response yields the body exactly when its status is 200. A 404 yields the parse error, or `Error404` with the body's code and message; a 404 whose body is well-formed JSON but not an error report yields `Error404` with an empty code and message. Any other status yields a generic error with the status and the raw body. |
| Http.JobHrefOf | ontap_client_go/client.go:119-124 | A 202 body fails to decode only when malformed. Otherwise the result is its self link, or the empty link for a body of another shape. |
| Http.JobStatusOf | ontap_client_go/client.go:136-139 | The job-status decode error is ignored: a body that is not a job report has the empty state. |
| Http.Perform | ontap_client_go/client.go:106-166 | The first request sent is the caller's. The exchange consumes at least one reply unless the script ran out. It never panics. |
| Http.Poll | ontap_client_go/client.go:126-146 | Every poll is a GET of the self link. Polling consumes replies and never panics. |
| Http.DoRequest | ontap_client_go/client.go:106-166 | The step-by-step `doRequest`, with the job loop as a `while` loop, has exactly the outcome, leftover replies and requests of `Perform`. |
| HttpProperties.OnlySuccessStatusesYieldBody | ontap_client_go/client.go:149-165 | A response yields a body only if its status is 200 or 202. |
| HttpProperties.OkReturnsBody | ontap_client_go/client.go:149-165 | A 200 returns its body and consumes one reply. |
| HttpProperties.NotFoundCarriesCodeAndMessage | ontap_client_go/client.go:150-161 | A 404 with an error document yields `Error404` carrying that code and message, with text `<code>: <message>`. |
| HttpProperties.NotFoundUnparsable | ontap_client_go/client.go:153-156 | A 404 whose body does not parse yields the parse error. |
| HttpProperties.OtherStatusIsGeneric | ontap_client_go/client.go:162 | Any other status, including other 2xx codes, yields the generic error with that status and the raw body. |
| HttpProperties.TransportFailureEndsExchange | ontap_client_go/client.go:108-117 | A transport failure on the first request ends the exchange with that error after one request. |
| HttpProperties.TransportFailureEndsPolling | ontap_client_go/client.go:132-135 | A transport failure on a poll ends the loop with that error. |
| HttpProperties.PollFollowsFirstTerminalState | ontap_client_go/client.go:126-146 | Polling follows the job updates up to the first terminal state. `success` returns that job-status body; `failure` returns an error with the job's message. Exactly k+1 polls are sent and the remaining replies are left over. |
| HttpProperties.NonTerminalStatesKeepPolling | ontap_client_go/client.go:139-146 | When every update is non-terminal (including `error`), one poll is sent per update and the loop is still polling when the replies run out. |
| HttpProperties.AcceptedFollowsJob | ontap_client_go/client.go:119-147 | A 202 with a job link answers with the job's first terminal state, not with the original resource. |
| Format.Decimal | ontap_client_go/client.go:256 | `%d` renders digits, with a leading minus sign for negative numbers, and never a leading zero except for zero itself. |
| Format.DecimalRoundTrip | ontap_client_go/client.go:256 | Parsing the `%d` rendering of an integer gives back the integer. |
| QtreeWire.RestMarshall | ontap_client_go/qtree.go:22-38 | The body never emits the uuid, `svm_uuid` or `volume_uuid`. A non-empty flat uuid replaces the reference by `{uuid}`; an empty one leaves the reference untouched. Name, id, path, security style and permissions pass through. |
| QtreeWire.RestMarshallIdempotent | ontap_client_go/qtree.go:25-35 | Rewriting a rewritten record changes nothing. |
| QtreeWire.CreateBody | ontap_client_go/client.go:169-178 | The create body's references are `{uuid}` of the caller's flat uuids, with no empty check. The flat fields are emptied and every other field is kept. |
| QtreeWire.CreateBodyIsRestMarshall | ontap_client_go/client.go:169-178 | For a new qtree with both flat uuids set, the create rewrite and `RestMarshall` agree. |
| QtreeWire.FromWire | ontap_client_go/client.go:229-236 | A fetched qtree gets the requested identity. Its flat uuids are the reference uuids, both references are reset, and the attributes pass through. |
| QtreeWire.FromWireUndoesRestMarshall | ontap_client_go/qtree.go:22-38 | Reading back a marshalled flat qtree gives the qtree back. |
| QtreeWire.RestMarshallUndoesFromWire | ontap_client_go/client.go:229-236 | Marshalling a fetched qtree gives back the wire record without uuid and flat fields. |
| SvmWire.EnabledTagRules | ontap_client_go/svm.go:61-108 | The `enabled` key of a protocol block follows its tag: a present `fcp` or `nvme` block always serialises it; `iscsi`, `ldap`, `nfs` and `nis` serialise it exactly when it is true. |
| SvmWire.EnabledNeedsBlock | ontap_client_go/svm.go:61-108 | A block's `enabled` key is serialised only when the block itself is. |
| QtreeClient.Identity | ontap_client_go/client.go:256 | The identity `<volume uuid>/<id>` splits at its first slash back into the volume uuid and the decimal id, when the volume uuid has no slash. |
| QtreeClient.QtreeOf | ontap_client_go/client.go:219-225 | A qtree body fails to decode only when malformed. |
| QtreeClient.ListingsOf | ontap_client_go/client.go:251-255 | A lookup body fails to decode only when malformed. |
| QtreeClient.GetQtreeSpec | ontap_client_go/client.go:207-237 | Exactly one GET of the identity: the remaining replies and the requests sent are those of that exchange. An exchange that gives no value is passed on as it is. A malformed body gives the decode error. A success is the decoded record read back with `FromWire`, so its uuid is the requested identity. It never panics. |
| QtreeClient.GetQtree | ontap_client_go/client.go:207-237 | The step-by-step `GetQtree` equals `GetQtreeSpec`. |
| QtreeClient.GetQtreeInVolumeSpec | ontap_client_go/client.go:238-286 | It looks up volume and name. A lookup that gives no value ends the call with that same outcome. A malformed listing gives the decode error. An empty listing panics with nothing more sent. Otherwise the result is exactly fetching the first listing's identity, so a success has uuid `<volume uuid>/<first id>`. |
| QtreeClient.GetQtreeInVolume | ontap_client_go/client.go:238-286 | The step-by-step `GetQtreeInVolume` equals its specification. |
| QtreeClient.CreateQtreeSpec | ontap_client_go/client.go:168-205 | It POSTs `CreateBody`. A POST that gives no value ends the call with that same outcome and nothing more sent. Otherwise the result, the remaining replies and the requests after the POST are exactly those of looking the qtree up in the caller's volume by name. A success has an identity `<volume uuid>/<id>`. |
| QtreeClient.CreateQtree | ontap_client_go/client.go:168-205 | The step-by-step `CreateQtree` equals its specification. |
| QtreeClient.UpdateQtreeSpec | ontap_client_go/client.go:287-314 | It PATCHes the identity with `RestMarshall`. A PATCH that gives no value ends the call with that same outcome. Otherwise the result and the requests after the PATCH are exactly those of `GetQtree` of the same identity, so a success keeps the caller's identity. |
| QtreeClient.UpdateQtree | ontap_client_go/client.go:287-314 | The step-by-step `UpdateQtree` equals its specification. |
| QtreeClient.DeleteQtreeSpec | ontap_client_go/client.go:316-331 | One DELETE of the identity. A success is `Ok`, and any other outcome of the exchange is passed on as it is, with the exchange's remaining replies and requests. |
| QtreeClient.DeleteQtree | ontap_client_go/client.go:316-331 | The step-by-step `DeleteQtree` equals its specification. |
| SvmClient.SvmOf | ontap_client_go/svm.go:205-211 | An SVM body fails to decode only when malformed. |
| SvmClient.SearchRecordsOf | ontap_client_go/svm.go:188-189 | The name-search decode error is ignored: a body of another shape has no records. |
| SvmClient.FetchSpec | ontap_client_go/svm.go:193-213 | Exactly one GET of the SVM's uuid: the remaining replies and the requests sent are those of that exchange. An exchange that gives no value is passed on as it is. A malformed body gives the decode error. A success is the decoded record. |
| SvmClient.GetSvmSpec | ontap_client_go/svm.go:173-214 | With a name, it searches by name first. A search that gives no value ends the call with that same outcome. An empty result panics with nothing more sent. Otherwise the result is exactly fetching the first record's uuid. Without a name, it fetches the given uuid. Without either, it panics before any request. |
| SvmClient.NameTakesPrecedence | ontap_client_go/svm.go:175-191 | With a name, the uuid argument has no effect. |
| SvmClient.GetSVM | ontap_client_go/svm.go:173-214 | The step-by-step `GetSVM` equals its specification. |
| SvmClient.CreateSvmSpec | ontap_client_go/svm.go:144-171 | It POSTs the record. A POST that gives no value ends the call with that same outcome. Otherwise the result and the requests after the POST are exactly those of `GetSVM` by the record's name. |
| SvmClient.CreateSVM | ontap_client_go/svm.go:144-171 | The step-by-step `CreateSVM` equals its specification. |
| SvmClient.PatchBody | ontap_client_go/svm.go:218-222 | The PATCH body never emits uuid, fcp or `fcp.enabled`. Every other field is the caller's. |
| SvmClient.UpdateSvmSpec | ontap_client_go/svm.go:216-247 | It PATCHes the saved uuid, then fetches that same uuid. A PATCH that gives no value ends the call with that same outcome, before the read. A nil uuid panics before any request. |
| SvmClient.SvmBox.constructor | ontap_client_go/svm.go:216 | The box holds the caller's record. |
| SvmClient.UpdateSVM | ontap_client_go/svm.go:216-247 | The caller's record is changed in place to the PATCH body, with uuid and fcp nil. The result equals `UpdateSvmSpec` of the record before the call. |
| SvmClient.DeleteSvmSpec | ontap_client_go/svm.go:249-264 | One DELETE of the uuid. A success is `Ok`, and any other outcome of the exchange is passed on as it is. A nil uuid panics before any request. |
| SvmClient.DeleteSVM | ontap_client_go/svm.go:249-264 | The step-by-step `DeleteSVM` equals its specification. |
| ProviderModels.OptionalString | internal/provider/svm_data_source.go:624-632 | A wire pointer becomes an attribute that is null exactly when the pointer is nil. |
| ProviderModels.Surfaced | internal/provider/qtree_resource.go:148-151 | A client error becomes an error diagnostic, and no state is written. |
| ProviderModels.Appended | internal/provider/svm_data_source.go:594-599 | Appending nothing leaves the slice as it was (nil stays nil). Otherwise the items follow the existing ones. |
| ProviderModels.MapSeq | internal/provider/svm_data_source.go:515-521 | The copied list has the same length and order, element by element. |
| ProviderModels.AppendEach | internal/provider/svm_data_source.go:594-599 | The `for … range` append loop yields the existing slice followed by the image of every item, in order. |
| QtreeResource.StateOf | internal/provider/qtree_resource.go:158-165 | Every state attribute, including uuid and the numeric id, comes from the client's record. |
| QtreeResource.CreateRecord | internal/provider/qtree_resource.go:139-144 | The create request copies name, svm_uuid, volume_uuid, security_style and unix_permissions from the plan. Everything else is zero. |
| QtreeResource.Create | internal/provider/qtree_resource.go:119-169 | It sends `CreateRecord(plan)`. The state is written exactly when the client succeeds, and then it is the created record, with uuid `<planned volume>/<id>`. A client error is a diagnostic. |
| QtreeResource.Read | internal/provider/qtree_resource.go:171-202 | It fetches the state's uuid and refreshes every attribute except svm_uuid, which keeps its prior value. A client error is a diagnostic. |
| QtreeResource.UpdateRecord | internal/provider/qtree_resource.go:223-227 | The update request carries the state's uuid and the plan's name, security style and permissions, with no SVM or volume uuid. |
| QtreeResource.Update | internal/provider/qtree_resource.go:204-255 | It PATCHes the state's uuid with that record. The new state is the server's result under the same uuid. A client error is a diagnostic. |
| QtreeResource.Delete | internal/provider/qtree_resource.go:257-280 | The DELETE goes to the state's uuid only; the volume uuid is set on the record but never reaches the request. The client error is discarded: a returned call is `Done`, never a diagnostic. |
| QtreeDataSource.Read | internal/provider/qtree_data_source.go:109-143 | It fetches the configured uuid and stores all seven attributes from the record; the stored uuid is the requested one. A client error is a diagnostic with nothing stored. |
| SvmResource.CreateRecord | internal/provider/svm_resource.go:420-447 | The create request has the planned name and comment and no CIFS block. DNS is present only when planned, with domains and servers copied in order. Nothing else is set. |
| SvmResource.Create | internal/provider/svm_resource.go:399-462 | A planned CIFS block without ad_domain or name panics before any request. Otherwise it sends `CreateRecord(plan)` and stores the plan with only the uuid replaced by the created SVM's. A client error is a diagnostic. |
| SvmResource.Read | internal/provider/svm_resource.go:464-491 | It fetches the state's uuid. Only uuid and name are refreshed; every other attribute keeps its prior value. |
| SvmResource.UpdateRecord | internal/provider/svm_resource.go:512-514 | The update record has only the state's uuid and the plan's name. |
| SvmResource.Update | internal/provider/svm_resource.go:493-536 | It PATCHes the state's uuid with the plan's name. The stored state is the plan with uuid and name from the server's result. |
| SvmResource.UpdateBodyEmits | internal/provider/svm_resource.go:511-514 | The PATCH body is the zero SVM with the plan's name. It emits exactly `certificate`, `ipspace` and `iscsi`, which `omitempty` never drops as struct members, plus `name` unless it is empty. |
| SvmResource.Delete | internal/provider/svm_resource.go:538-560 | It DELETEs the state's uuid and discards the client error: a returned call is `Done`, never a diagnostic. |
| SvmDataSource.AggregateOf | internal/provider/svm_data_source.go:514-522 | Each aggregate keeps its name and uuid. |
| SvmDataSource.FcInterfaceOf | internal/provider/svm_data_source.go:601-610 | Each FC interface keeps its data protocol, name and uuid. |
| SvmDataSource.DnsOf | internal/provider/svm_data_source.go:592-599 | Domains and servers are each `StringList` of the wire list: nil when empty, otherwise each in order. |
| SvmDataSource.NsSwitchOf | internal/provider/svm_data_source.go:687-704 | Each of the five sources is `StringList` of its wire list. |
| SvmDataSource.CifsOf | internal/provider/svm_data_source.go:527-542 | CIFS name is null exactly when absent on the wire and the wire name otherwise. ad_domain is absent exactly when absent on the wire, and otherwise carries its fqdn and organizational unit. `enabled` is copied. |
| SvmDataSource.IpInterfaceOf | internal/provider/svm_data_source.go:619-641 | Address, name and uuid are copied. Netmask and service_policy are null exactly when absent and the wire value otherwise. Services are `StringList` of the wire services: nil exactly when there are none, otherwise each in order. |
| SvmDataSource.RouteOf | internal/provider/svm_data_source.go:710-722 | The destination address, family and netmask are copied. The gateway is never copied and stays the empty string. |
| SvmDataSource.StringList | internal/provider/svm_data_source.go:594-599 | A list of wire strings becomes a nil list when empty, otherwise a list holding each string in order. |
| SvmDataSource.LdapOf | internal/provider/svm_data_source.go:657-672 | ad_domain, base_dn and bind_dn are null exactly when absent. `enabled` and the servers, in order, are copied. |
| SvmDataSource.NisOf | internal/provider/svm_data_source.go:677-685 | The NIS domain is null exactly when absent. NIS servers are the LDAP servers, and `enabled` is false. |
| SvmDataSource.Project | internal/provider/svm_data_source.go:511-722 | The read panics exactly when the uuid or the DNS, FCP, LDAP, NFS, NIS, NSSwitch or NVME block is absent, and otherwise stores a model: uuid and name are the wire values; aggregates are a non-nil list with the same uuids; CIFS is untouched when absent on the wire; NIS servers equal the LDAP servers and NIS is never enabled; routes keep their count; state and subtype are untouched. |
| SvmDataSource.ProjectStoresEveryField | internal/provider/svm_data_source.go:511-722 | A read with no missing block stores every field. It stores: uuid, name, aggregates (each name and uuid, as a non-nil list), aggregates_delegated, certificate, comment, CIFS (untouched when absent on the wire), DNS, the FC and IP interfaces appended to the configured lists, ipspace, iSCSI, language, LDAP, NIS (servers taken from LDAP), nsswitch, the FCP, NFS and NVME flags, and the routes. Only state and subtype keep their configured values. |
| SvmDataSource.CopyCifs | internal/provider/svm_data_source.go:527-542 | The CIFS block built step by step is `CifsOf`. |
| SvmDataSource.CopyDns | internal/provider/svm_data_source.go:593-599 | The DNS lists are appended element by element onto nil slices. |
| SvmDataSource.CopyLdap | internal/provider/svm_data_source.go:657-672 | The LDAP block built step by step is `LdapOf`. |
| SvmDataSource.CopyNis | internal/provider/svm_data_source.go:678-685 | The NIS block built step by step, with its server loop over the LDAP servers, is `NisOf`. |
| SvmDataSource.CopyNsSwitch | internal/provider/svm_data_source.go:688-704 | The five nsswitch lists are copied element by element in order. |
| SvmDataSource.AppendIpInterfaces | internal/provider/svm_data_source.go:619-641 | The interface loop, with its inner services loop, appends `IpInterfaceOf` of every interface in order. |
| SvmDataSource.Copy | internal/provider/svm_data_source.go:511-722 | The step-by-step copy after the fetch, block by block with a dereference per block, equals `Project`. |
| SvmDataSource.Read | internal/provider/svm_data_source.go:494-730 | It fetches the configured uuid. A client error is a diagnostic with nothing stored. Otherwise the effect is `Project` of the configuration and the record. |

## Left out

- HTTP transport: `http.Client`, basic authentication, the host part of URLs, the 10-second timeout, TLS settings and `NewClient` (including its probe of an external URL). They are I/O; the script of replies stands in for them.
- JSON encoding and decoding: bodies are abstract documents. Partial decoding of a document that shares only some keys with the target record is not modelled (such a body decodes to the zero record).
- JSON type mismatches: `encoding/json` rejects well-formed JSON whose member types do not match the target (for example a 404 body `{"error":"x"}` gives an `UnmarshalTypeError`). The model can express that case only as a `Malformed` document.
- `fmt.Errorf(jobStatus.Message)` treats the job message as a format string; the model takes the message verbatim.
- Integer widths: `int64` ids and permissions are unbounded integers. No overflow can occur in the modelled code.
- Terraform framework plumbing: schemas, `Metadata`, `Configure`, `ImportState`, logging, plan/state `Get`/`Set`, and the provider registration in internal/provider/provider.go.
- Commented-out code in the SVM data source and the SVM resource schema.
- The poll loop has no delay in the source; time is not modelled.
- `UUIDRef` is not part of this model's source files. It is taken to be `{uuid, name}`, since the data sources read `.UUID` and `.Name` from it.
- `GetQtree`'s second argument, the qtree name, is never used by the source and is not a parameter of the model.
- SvmDataSource.Read: the source calls a one-argument `GetSVM` and reads `SVM.UUID` as a string, neither of which matches the client (`GetSVM(uuid, name *string)`, `UUID *string`). The model calls the client's lookup by uuid, and treats an absent uuid as a nil dereference.
- The SVM data source model leaves out the `s3`, `snapmirror` and `snapshot_policy` blocks: they are empty structs that `Read` never writes.
- Unknown Terraform values are not modelled; an attribute is null or known.
