# Power BI embed service, modelled in Dafny

This project models `EmbedService`, the core of a proof-of-concept web page.
The service checks its connection settings and obtains an OAuth bearer token.
It then asks the Power BI REST API for a report, a dashboard or a tile of the
configured workspace. It requests an embed token for that item and fills in an
embed descriptor (`EmbedConfig` or `TileEmbedConfig`) for the page to render.

Layout, one module per component:

- `wrappers.dfy` (`Wrappers`) holds `Option`, which stands for a nullable
  value, and `Result`, which is a success or an error.
- `text.dfy` (`Text`) holds the .NET string behaviour the service relies on:
  `string.IsNullOrWhiteSpace` with the exact `char.IsWhiteSpace` set,
  trimming, `Guid.TryParse` syntax, case-insensitive comparison,
  `string.Split(',')` with `Join` as its inverse, and decimal rendering of
  status codes.
- `settings.dfy` (`Settings`) holds the `EmbedSettings` record and the
  configuration validator `GetWebConfigErrors`. The validator is paired with
  an independent statement of what it demands (`ConfigComplete`) and of its
  fixed check order (`Applies`, `Fails`, `Rank`).
- `models.dfy` (`Models`) holds what the service exchanges with the outside:
  reports, dashboards, tiles, dataset flags, embed tokens, token requests
  with effective identities, HTTP failures, and the two descriptors.
  `EmbedError` names each error the service can write; its `Message()` is
  the exact text the source stores in `ErrorMessage`.
- `embed_service.dfy` (`EmbedServices`) holds the service itself:
  - report selection and token-request construction, as pure functions;
  - the credential gate `Gate`;
  - one predicate per workflow (`ReportEffect`, `DashboardEffect`,
    `TileEffect`), giving the outcome and the new descriptors;
  - the class `EmbedService`. Its fields are the settings, the token
    credentials and the two descriptors. A ghost log `calls` records every
    foreign call issued, with its arguments.

Foreign calls are inputs. The authentication result is an `AuthOutcome`:
an exception message, a null result, or an access token. The Power BI answers
are a `PowerBIApi` value: the report and dashboard listings, plus functions
from request to answer for datasets, tiles and token generation. Each answer
is a value or an HTTP error. The ghost log is what lets the contracts say
that a call was never made. Examples: authentication is never attempted when
validation fails; no dataset or token request follows an empty listing.

Behaviour the code has and the contracts pin down:

- A successful report embed updates the descriptor in place. It keeps a
  previous `ErrorMessage`.
- A failure after the dataset lookup leaves the dataset's
  effective-identity flags written.
- A successful dashboard embed replaces the descriptor wholesale, dropping any
  earlier error and flags.
- The tile workflow copies the report descriptor's credential error into the
  tile descriptor. It writes its HTTP errors to the report descriptor.
- Because a successful report embed keeps an earlier error, a descriptor
  can hold a stale `ErrorMessage` next to a fresh token
  (EmbedService.cs:66-70 and :129-131). No invariant ties success to an
  absent error, and the model states none.
- Authentication (`AuthenticationCall`) always uses the client-credentials
  flow: the tenant-specific authority, application id and secret. This holds
  in `"MasterUser"` mode too, where that mode's own flow is commented out.
  The validator never checks the secret or the tenant in that mode.

## Model

| member | source | states |
|---|---|---|
| `Settings.WebConfigErrors` | PBIEmbedPOC/Services/EmbedService.cs:269-329 | Models `GetWebConfigErrors` as the same early-return chain. No ensures of its own; characterised by `ValidatorAcceptsExactlyComplete` and `ValidatorReportsFirstFailure`. |
| `Settings.ValidatorAcceptsExactlyComplete` | PBIEmbedPOC/Services/EmbedService.cs:269-329 | The validator returns null exactly when both ids are non-blank GUIDs and the mode's two fields (username/password for "MasterUser", secret/tenant otherwise) are non-blank. |
| `Settings.ValidatorReportsFirstFailure` | PBIEmbedPOC/Services/EmbedService.cs:272-326 | The validator reports check e exactly when e applies to the mode and fails, and every applicable check before it in the fixed order passes. |
| `Settings.ReportedCheckIsFirst` | PBIEmbedPOC/Services/EmbedService.cs:272-326 | A reported check applies, fails, and every earlier applicable check passes. |
| `Settings.FirstFailingCheckIsReported` | PBIEmbedPOC/Services/EmbedService.cs:272-326 | The first applicable failing check is the one reported. |
| `Settings.MasterUserIgnoresSecretAndTenant` | PBIEmbedPOC/Services/EmbedService.cs:299-312 | In "MasterUser" mode, changing the secret or tenant never changes the validator's answer. |
| `Settings.OtherModesIgnoreUsernameAndPassword` | PBIEmbedPOC/Services/EmbedService.cs:313-326 | In every other mode, changing the username or password never changes the validator's answer. |
| `Text.TrimStartRemovesLeadingBlank` | PBIEmbedPOC/Services/EmbedService.cs:280 | The result is a suffix of the input; the removed prefix is white space and the result does not start with white space. |
| `Text.TrimEndRemovesTrailingBlank` | PBIEmbedPOC/Services/EmbedService.cs:280 | The result is a prefix of the input; the removed suffix is white space and the result does not end with white space. |
| `Text.TrimBlank` | PBIEmbedPOC/Services/EmbedService.cs:272-284 | A blank string trims to the empty string. |
| `Text.BlankIsNotGuid` | PBIEmbedPOC/Services/EmbedService.cs:272-284 | No blank id parses as a GUID, so the emptiness check is subsumed by the GUID check. |
| `Text.Split` | PBIEmbedPOC/Services/EmbedService.cs:102 | Splitting gives at least one piece and no piece contains the separator. |
| `Text.JoinSplit` | PBIEmbedPOC/Services/EmbedService.cs:102 | Joining the pieces of `roles.Split(',')` with ',' gives `roles` back. |
| `Text.SplitCount` | PBIEmbedPOC/Services/EmbedService.cs:102 | The split has one more piece than the string has commas. |
| `Text.SplitAfterPiece` | PBIEmbedPOC/Services/EmbedService.cs:102 | A separator-free leading piece is split off unchanged. |
| `Text.SplitJoin` | PBIEmbedPOC/Services/EmbedService.cs:102 | Splitting a join of separator-free pieces gives the pieces back, so the split is the unique such decomposition. |
| `Text.NatToString` | PBIEmbedPOC/Services/EmbedService.cs:137 | The rendering of `(int) StatusCode` is a non-empty string of decimal digits. |
| `Text.DecimalValueOfNatToString` | PBIEmbedPOC/Services/EmbedService.cs:137 | Reading the rendered status code back gives the number. |
| `Models.HttpErrorMessage` | PBIEmbedPOC/Services/EmbedService.cs:136-137 | Models the interpolated status, response and RequestId text. No ensures of its own; characterised by `HttpErrorMessageMentions`. |
| `Models.HttpErrorMessageMentions` | PBIEmbedPOC/Services/EmbedService.cs:134-138 | The HTTP error text contains the numeric status code, and the RequestId value when there is one. |
| `EmbedServices.FirstMatchFrom` | PBIEmbedPOC/Services/EmbedService.cs:80-81 | Returns the index of the first report at or after k whose id matches ignoring case, or none when no report from k on matches. |
| `EmbedServices.SelectReport` | PBIEmbedPOC/Services/EmbedService.cs:72-89 | A blank ReportId selects the first report of a non-empty listing. Otherwise a report is selected exactly when some id matches ignoring case, and then it is the first such report. |
| `EmbedServices.SelectionIgnoresLaterReports` | PBIEmbedPOC/Services/EmbedService.cs:76-81 | Reports listed after the selected one never change the selection. |
| `EmbedServices.TokenRequestFor` | PBIEmbedPOC/Services/EmbedService.cs:94-116 | Models the construction of the token request from username, roles and dataset id. No ensures of its own; characterised by `TokenRequestIdentity` and `AdminViewerGivesTwoRoles`, and used by `EmbedChosenReport`'s contract. |
| `EmbedServices.TokenRequestIdentity` | PBIEmbedPOC/Services/EmbedService.cs:94-116 | The access level is "view". The request has no identities exactly for a blank username. Otherwise it has one identity: that username, the datasets [datasetId], custom data "BR001", and roles present exactly when roles is non-blank. Those roles are the comma-free pieces that join back to roles, one more than its commas. |
| `EmbedServices.AdminViewerGivesTwoRoles` | PBIEmbedPOC/Services/EmbedService.cs:99-104 | Roles "Admin,Viewer" give exactly the two roles Admin and Viewer. |
| `EmbedServices.AuthenticationCall` | PBIEmbedPOC/Services/EmbedService.cs:339-345 | Models the request `DoAuthentication` sends: authority plus tenant, application id, secret, resource URL, in every mode. No ensures of its own; `GetTokenCredentials` states that it is logged exactly when validation passes. |
| `EmbedServices.Gate` | PBIEmbedPOC/Services/EmbedService.cs:392-422 | Models the verdict of `GetTokenCredentials`. No ensures of its own; characterised by `GateOpensExactly` and `GateRejectsIncompleteSettings`, and tied to the method by its ensures. |
| `EmbedServices.GateOpensExactly` | PBIEmbedPOC/Services/EmbedService.cs:392-422 | The credential gate succeeds exactly for complete settings and an access token, yielding Bearer credentials for that token. |
| `EmbedServices.GateRejectsIncompleteSettings` | PBIEmbedPOC/Services/EmbedService.cs:395-400 | On the first failing check the gate fails with that check's message, whatever authentication would answer. |
| `EmbedServices.ChosenReportEffect` | PBIEmbedPOC/Services/EmbedService.cs:91-141 | The new descriptor and call log after a report is chosen. No ensures of its own; characterised by `ReportOutcome`, and established by `EmbedChosenReport`'s ensures. |
| `EmbedServices.ReportEffect` | PBIEmbedPOC/Services/EmbedService.cs:57-141 | The new descriptor and call log of the report workflow after the gate. No ensures of its own; characterised by `ReportFailsBeforeAnyRequest` and `ReportOutcome`, and established by `EmbedReport`'s ensures. |
| `EmbedServices.DashboardEffect` | PBIEmbedPOC/Services/EmbedService.cs:154-198 | The new descriptor and call log of the dashboard workflow. No ensures of its own; characterised by `DashboardOutcome`, and established by `EmbedDashboard`'s ensures. |
| `EmbedServices.FirstTileId` | PBIEmbedPOC/Services/EmbedService.cs:232-236 | Models `tiles.Value.FirstOrDefault()` followed by `tile?.Id`: the first tile's id, or null for no tiles. No ensures of its own; used by `TileEffect`. |
| `EmbedServices.TileEffect` | PBIEmbedPOC/Services/EmbedService.cs:212-262 | The new descriptors and call log of the tile workflow. No ensures of its own; characterised by `TileOutcome`, and established by `EmbedTile`'s ensures. |
| `EmbedServices.ReportFailsBeforeAnyRequest` | PBIEmbedPOC/Services/EmbedService.cs:63-89 | An empty listing, or a ReportId nothing matches, fails with "No reports were found…" or "No report with the given ID…" respectively. Only the listing call is issued: no dataset or token request. |
| `EmbedServices.ReportOutcome` | PBIEmbedPOC/Services/EmbedService.cs:91-141 | On success, the selected report was embedded: listing, dataset and token calls in order with the built request; the dataset flags copied; token, URL and id set; the earlier error kept. On failure, an error is set and token, URL and id are untouched. |
| `EmbedServices.DashboardOutcome` | PBIEmbedPOC/Services/EmbedService.cs:160-190 | On success, the descriptor holds only the first dashboard's token, URL and id, with no error and no flags. On failure, only the error changes. No tile or report-token call is made. |
| `EmbedServices.TileOutcome` | PBIEmbedPOC/Services/EmbedService.cs:218-262 | On success, the report descriptor is unchanged and the tile descriptor holds the first dashboard's id, a token and no error. On failure, either an HTTP error reaches only the report descriptor, or "Workspace has no dashboards." / "Failed to generate embed token." reaches only the tile descriptor. |
| `EmbedServices.EmbedService.constructor` | PBIEmbedPOC/Services/EmbedService.cs:39-45 | Stores the settings, no credentials, two empty descriptors. |
| `EmbedServices.EmbedService.GetTokenCredentials` | PBIEmbedPOC/Services/EmbedService.cs:392-422 | Returns the gate's verdict. Authentication is logged only after validation passes. On failure the error is written and the credentials are kept. On success the Bearer credentials are set and the descriptor is untouched. |
| `EmbedServices.EmbedService.EmbedReport` | PBIEmbedPOC/Services/EmbedService.cs:47-142 | A gate failure gives that error and false. Otherwise the new credentials, the report workflow's effect on descriptor and log, and the tile descriptor unchanged. |
| `EmbedServices.EmbedService.EmbedReportInWorkspace` | PBIEmbedPOC/Services/EmbedService.cs:57-89 | Listing, empty check and selection, with their errors (HTTP errors included), then the chosen report's embed. |
| `EmbedServices.EmbedService.EmbedChosenReport` | PBIEmbedPOC/Services/EmbedService.cs:91-141 | Dataset flags are written, then the token request built from username and roles is sent. The descriptor gets token, URL and id, or the HTTP / "Failed to generate embed token." error. |
| `EmbedServices.EmbedService.EmbedDashboard` | PBIEmbedPOC/Services/EmbedService.cs:144-199 | A gate failure gives that error and false. Otherwise the new credentials and the dashboard workflow's effect. |
| `EmbedServices.EmbedService.EmbedDashboardInWorkspace` | PBIEmbedPOC/Services/EmbedService.cs:154-198 | The first dashboard gets a viewer token request. Success replaces the descriptor wholesale; each failure sets its error. |
| `EmbedServices.EmbedService.EmbedTile` | PBIEmbedPOC/Services/EmbedService.cs:201-263 | A gate failure writes the error to both descriptors. Otherwise the new credentials and the tile workflow's effect. |
| `EmbedServices.EmbedService.EmbedTileInWorkspace` | PBIEmbedPOC/Services/EmbedService.cs:212-262 | First dashboard, its tiles, a token for the first tile id (null when there are none). HTTP errors go to the report descriptor, the other errors to the tile descriptor. Success replaces the tile descriptor, including dashboardId. |
| `EmbedServices.ReportErrorOutlivesSuccess` | PBIEmbedPOC/Services/EmbedService.cs:66-70 | After a report embed fails on an empty listing, a later successful one returns true and sets the report id, but the descriptor still carries "No reports were found…". |
| `EmbedServices.DashboardClearsReportError` | PBIEmbedPOC/Services/EmbedService.cs:183-188 | A successful dashboard embed clears the error an earlier failed report embed left. |
| `EmbedServices.TileSharesCredentialError` | PBIEmbedPOC/Services/EmbedService.cs:204-210 | With rejected settings, a tile embed fails, sets no credentials, and both descriptors carry the validator's message. |

## Left out

- `DoAuthentication` and `AuthenticateAsync` (ADAL, an HTTP POST, JSON decoding) are network calls. Authentication is the `AuthOutcome` parameter. `AuthenticateAsync` is reachable only from commented-out code.
- The Power BI client calls (`GetReportsInGroupAsync`, `GetDatasetByIdInGroupAsync`, the `GenerateTokenInGroupAsync` calls, `GetDashboardsInGroupAsync`, `GetTilesInGroupAsync`) are network calls. Their answers are the `PowerBIApi` parameter, so the workspace is always the configured one.
- `async`/`await`, `Task`, creating the `PowerBIClient` from `ApiUrl` and `using` disposal are left out. The calls are strictly sequential. Exceptions other than `HttpOperationException` (and, at the gate, `AggregateException`) propagate in the source and are not modelled.
- `Guid.TryParse`: after trimming, only the "N", "D", "B" and "P" layouts are accepted. The "X" layout and any further leniency of the library parser are not modelled.
- `EmbedServices.SelectReport`: case-insensitive comparison is ASCII case folding, not the invariant culture's comparison. The culture comparison also folds non-ASCII letters and ignores zero-weight code points such as U+00AD, so it can match ids of different lengths that the model does not match.
- A null string is modelled as "". The validated settings, `ReportId` (EmbedService.cs:73), the username and the roles reach `IsNullOrWhiteSpace` before any other use, which treats null and "" alike. The other settings reach string interpolation, which renders null as "": `AuthorityUrl` and `Tenant` at EmbedService.cs:340. Or they reach foreign calls the model abstracts: `ApplicationSecret` at :344, `ResourceUrl` at :345, `ApiUrl` at :60, :157 and :215. In "MasterUser" mode `Tenant` and `ApplicationSecret` are never validated, so null or "" is what those calls receive. A null `AuthenticationType` would throw at EmbedService.cs:299; a plain `string` field cannot be null.
- Each descriptor error is the `EmbedError` value whose `Message()` is the stored text. So the model tells apart errors with equal text. For example, an authentication exception whose message reads "Authentication Failed." differs from the null-result error.
- The HTTP error text assumes the response's `RequestId` header key exists (`requestId` is its first value, or nothing). The indexer would throw for a missing key, and that is not modelled.
- `EmbedServices.EmbedService.EmbedTile` needs `TileTokenNeedsTile`: the token service gives no token for a first dashboard that has no tiles. The source would dereference the null tile at EmbedService.cs:249 and throw.
- Descriptors are values held in the service's fields. A caller keeping an old `EmbedConfig` reference (as the page does at Embed.cshtml.cs:25) would not see a later wholesale replacement; that aliasing is not modelled.
- Models/EmbedConfig.cs and Models/TileEmbedConfig.cs are not part of this model. The descriptor fields are the ones the service reads or writes.
- The Razor page (Pages/Embed.cshtml.cs) and the interface (Services/IEmbedService.cs) are wiring with no logic of their own.
