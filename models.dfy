/** The values the embed service exchanges with the identity provider and
    the Power BI REST API, and the two embed descriptors it fills in. */
module Models {
  import opened Wrappers
  import opened Text
  import opened Settings

  /** A report as listed by GET /groups/{workspace}/reports. */
  datatype Report = Report(id: string, datasetId: string, embedUrl: string)

  /** A dashboard as listed by GET /groups/{workspace}/dashboards. */
  datatype Dashboard = Dashboard(id: string, embedUrl: string)

  /** A tile as listed by GET /groups/{workspace}/dashboards/{id}/tiles. */
  datatype Tile = Tile(id: string, embedUrl: string)

  /** The row-level-security flags of a dataset (nullable booleans). */
  datatype Dataset = Dataset(
    isEffectiveIdentityRequired: Option<bool>,
    isEffectiveIdentityRolesRequired: Option<bool>)

  /** The embed token a GenerateToken call answers with. */
  datatype EmbedToken = EmbedToken(token: string, tokenId: string, expiration: string)

  /** An effective identity stamped on an embed token; `roles` and
      `customData` are null unless assigned. */
  datatype EffectiveIdentity = EffectiveIdentity(
    username: string,
    datasets: seq<string>,
    roles: Option<seq<string>>,
    customData: Option<string>)

  /** GenerateTokenRequest: an access level and an optional identity list. */
  datatype TokenRequest = TokenRequest(accessLevel: string, identities: Option<seq<EffectiveIdentity>>)

  /** new GenerateTokenRequest("view"): a plain viewer token. */
  const ViewRequest: TokenRequest := TokenRequest("view", None)

  /** The bearer credentials handed to the Power BI client. */
  datatype TokenCredentials = TokenCredentials(accessToken: string, scheme: string)

  /** The response carried by an HttpOperationException. */
  datatype HttpFailure = HttpFailure(
    statusName: string,
    statusCode: nat,
    content: string,
    requestId: Option<string>)

  /** The outcome of one Power BI REST call: a value, or an HTTP error. */
  datatype Remote<+T> = Ok(value: T) | HttpError(failure: HttpFailure)

  /** The outcome of DoAuthentication: an AggregateException whose inner
      exception carries `message`, a null result, or an access token. */
  datatype AuthOutcome = Threw(message: string) | NoResult | Authenticated(accessToken: string)

  /** The answers the Power BI service gives, as functions of what is asked.
      The workspace is the configured one throughout. */
  datatype PowerBIApi = PowerBIApi(
    reports: Remote<seq<Report>>,
    dataset: string -> Remote<Dataset>,
    reportToken: (string, TokenRequest) -> Remote<Option<EmbedToken>>,
    dashboards: Remote<seq<Dashboard>>,
    dashboardToken: (string, TokenRequest) -> Remote<Option<EmbedToken>>,
    tiles: string -> Remote<seq<Tile>>,
    tileToken: (string, Option<string>, TokenRequest) -> Remote<Option<EmbedToken>>)

  /** One foreign call issued by the service, with what it sends. */
  datatype RemoteCall =
    | Authenticate(authority: string, clientId: string, clientSecret: string, resource: string)
    | ListReports(workspaceId: string)
    | GetDataset(workspaceId: string, datasetId: string)
    | GenerateReportToken(workspaceId: string, reportId: string, request: TokenRequest)
    | ListDashboards(workspaceId: string)
    | GenerateDashboardToken(workspaceId: string, dashboardId: string, request: TokenRequest)
    | ListTiles(workspaceId: string, dashboardId: string)
    | GenerateTileToken(workspaceId: string, dashboardId: string, tileId: Option<string>, request: TokenRequest)

  /** The call asks the service for an embed token. */
  predicate IsTokenRequest(c: RemoteCall) {
    c.GenerateReportToken? || c.GenerateDashboardToken? || c.GenerateTileToken?
  }

  /** The descriptor of a report or dashboard embed. */
  datatype EmbedConfig = EmbedConfig(
    id: Option<string>,
    embedUrl: Option<string>,
    embedToken: Option<EmbedToken>,
    isEffectiveIdentityRequired: Option<bool>,
    isEffectiveIdentityRolesRequired: Option<bool>,
    errorMessage: Option<EmbedError>)

  /** new EmbedConfig(): every field null. */
  const EmptyEmbedConfig: EmbedConfig := EmbedConfig(None, None, None, None, None, None)

  /** The descriptor of a tile embed, which also names the tile's dashboard. */
  datatype TileEmbedConfig = TileEmbedConfig(
    id: Option<string>,
    embedUrl: Option<string>,
    embedToken: Option<EmbedToken>,
    dashboardId: Option<string>,
    errorMessage: Option<EmbedError>)

  /** new TileEmbedConfig(): every field null. */
  const EmptyTileEmbedConfig: TileEmbedConfig := TileEmbedConfig(None, None, None, None, None)

  /** What a failed workflow writes to a descriptor's ErrorMessage; Message()
      is the text the service stores there. */
  datatype EmbedError =
    | InvalidConfig(check: ConfigError)
    | AuthenticationException(message: string)
    | AuthenticationFailed
    | NoReports
    | NoSuchReport
    | NoDashboards
    | TokenGenerationFailed
    | RemoteCallFailed(failure: HttpFailure)
  {
    function Message(): string {
      match this
      case InvalidConfig(check) => check.Message()
      case AuthenticationException(message) => message
      case AuthenticationFailed => "Authentication Failed."
      case NoReports => "No reports were found in the workspace"
      case NoSuchReport => "No report with the given ID was found in the workspace. Make sure ReportId is valid."
      case NoDashboards => "Workspace has no dashboards."
      case TokenGenerationFailed => "Failed to generate embed token."
      case RemoteCallFailed(failure) => HttpErrorMessage(failure)
    }
  }

  /** The descriptor error for an HttpOperationException: status name and
      number, response body, and the first RequestId header value (null,
      so nothing, when the header has no value). */
  function HttpErrorMessage(f: HttpFailure): string {
    "Status: " + f.statusName + " (" + NatToString(f.statusCode) + ")\r\nResponse: "
    + f.content + "\r\nRequestId: " + (match f.requestId case Some(r) => r case None => "")
  }

  /** The HTTP error message carries the numeric status code, and the
      correlation id when the response has one. */
  lemma HttpErrorMessageMentions(f: HttpFailure)
    ensures Contains(HttpErrorMessage(f), NatToString(f.statusCode))
    ensures f.requestId.Some? ==> Contains(HttpErrorMessage(f), f.requestId.value)
    ensures DecimalValue(NatToString(f.statusCode)) == f.statusCode
  {
    var code := NatToString(f.statusCode);
    var rid := match f.requestId case Some(r) => r case None => "";
    var before := "Status: " + f.statusName + " (";
    var after := ")\r\nResponse: " + f.content + "\r\nRequestId: " + rid;
    assert HttpErrorMessage(f) == before + code + after;
    ContainsMiddle(before, code, after);
    var head := "Status: " + f.statusName + " (" + code + ")\r\nResponse: " + f.content + "\r\nRequestId: ";
    assert HttpErrorMessage(f) == head + rid + "";
    ContainsMiddle(head, rid, "");
    DecimalValueOfNatToString(f.statusCode);
  }
}
