/** EmbedService: the credential gate and the report, dashboard and tile
    embed workflows, over the Power BI answers given as a parameter. */
module EmbedServices {
  import opened Wrappers
  import opened Text
  import opened Settings
  import opened Models


  // ----- Report selection -----

  /** A listed report id matches the configured ReportId, ignoring case. */
  predicate IdMatches(report: Report, reportId: string) {
    EqualsIgnoreCase(report.id, reportId)
  }

  /** FirstOrDefault over reports[k..] with the id-match predicate: the
      index of the first match at or after k. */
  function FirstMatchFrom(reports: seq<Report>, reportId: string, k: nat): (r: Option<nat>)
    requires k <= |reports|
    ensures r.Some? ==> k <= r.value < |reports| && IdMatches(reports[r.value], reportId)
    ensures r.Some? ==> forall j :: k <= j < r.value ==> !IdMatches(reports[j], reportId)
    ensures r.None? ==> forall j :: k <= j < |reports| ==> !IdMatches(reports[j], reportId)
    decreases |reports| - k
  {
    if k == |reports| then None
    else if IdMatches(reports[k], reportId) then Some(k)
    else FirstMatchFrom(reports, reportId, k + 1)
  }

  /** The report EmbedReport embeds, as an index into the listing: the
      first one when ReportId is blank, else the first whose id matches
      ReportId ignoring case; None when there is no such report. */
  function SelectReport(reports: seq<Report>, reportId: string): (r: Option<nat>)
    ensures IsBlank(reportId) ==> (r.Some? <==> |reports| > 0) && (r.Some? ==> r.value == 0)
    ensures !IsBlank(reportId) ==>
      (r.Some? <==> exists j :: 0 <= j < |reports| && IdMatches(reports[j], reportId))
    ensures !IsBlank(reportId) && r.Some? ==>
      && r.value < |reports| && IdMatches(reports[r.value], reportId)
      && forall j :: 0 <= j < r.value ==> !IdMatches(reports[j], reportId)
  {
    if IsBlank(reportId) then (if |reports| == 0 then None else Some(0))
    else FirstMatchFrom(reports, reportId, 0)
  }

  /** Two listings that agree up to and including the selected report
      select the same one: what follows the first match is never looked at. */
  lemma SelectionIgnoresLaterReports(reports: seq<Report>, more: seq<Report>, reportId: string)
    requires SelectReport(reports, reportId).Some?
    ensures SelectReport(reports + more, reportId) == SelectReport(reports, reportId)
  {
    var i := SelectReport(reports, reportId).value;
    assert (reports + more)[i] == reports[i];
  }

  // ----- Token request construction -----

  /** The GenerateTokenRequest EmbedReport sends: "view" access, and for a
      non-blank username one effective identity for the report's dataset,
      with the roles split at commas when roles is non-blank and the fixed
      custom data "BR001". */
  function TokenRequestFor(username: string, roles: string, datasetId: string): TokenRequest {
    if IsBlank(username) then ViewRequest
    else
      var identityRoles := if IsBlank(roles) then None else Some(Split(roles, ','));
      TokenRequest("view", Some([EffectiveIdentity(username, [datasetId], identityRoles, Some("BR001"))]))
  }

  /** What the token request says about the identity and its roles. */
  lemma TokenRequestIdentity(username: string, roles: string, datasetId: string)
    ensures TokenRequestFor(username, roles, datasetId).accessLevel == "view"
    ensures IsBlank(username) <==> TokenRequestFor(username, roles, datasetId).identities.None?
    ensures !IsBlank(username) ==>
      var ids := TokenRequestFor(username, roles, datasetId).identities.value;
      && |ids| == 1
      && ids[0].username == username
      && ids[0].datasets == [datasetId]
      && ids[0].customData == Some("BR001")
      && (ids[0].roles.Some? <==> !IsBlank(roles))
      && (ids[0].roles.Some? ==>
            && Join(ids[0].roles.value, ',') == roles
            && |ids[0].roles.value| == Occurrences(roles, ',') + 1
            && forall k :: 0 <= k < |ids[0].roles.value| ==> ',' !in ids[0].roles.value[k])
  {
    JoinSplit(roles, ',');
    SplitCount(roles, ',');
  }

  /** The roles "Admin,Viewer" become exactly the two roles Admin and Viewer. */
  lemma AdminViewerGivesTwoRoles(username: string, datasetId: string)
    requires !IsBlank(username)
    ensures TokenRequestFor(username, "Admin,Viewer", datasetId).identities.value[0].roles
         == Some(["Admin", "Viewer"])
  {
    assert !IsWhiteSpace("Admin,Viewer"[0]);
    var pieces := ["Admin", "Viewer"];
    assert Join(pieces, ',') == "Admin,Viewer";
    SplitJoin(pieces, ',');
  }

  // ----- Credential gate -----

  /** The client-credentials authentication DoAuthentication performs, in
      every authentication mode: tenant-specific authority, application id
      and secret, resource URL. */
  function AuthenticationCall(s: EmbedSettings): RemoteCall {
    Authenticate(s.authorityUrl + s.tenant, s.applicationId, s.applicationSecret, s.resourceUrl)
  }

  /** The outcome of GetTokenCredentials: the bearer credentials, or the
      error message it writes to the descriptor. */
  function Gate(s: EmbedSettings, auth: AuthOutcome): Result<TokenCredentials, EmbedError> {
    match WebConfigErrors(s)
    case Some(e) => Failure(InvalidConfig(e))
    case None =>
      match auth
      case Threw(message) => Failure(AuthenticationException(message))
      case NoResult => Failure(AuthenticationFailed)
      case Authenticated(accessToken) => Success(TokenCredentials(accessToken, "Bearer"))
  }

  /** The gate opens exactly for complete settings and an access token. */
  lemma GateOpensExactly(s: EmbedSettings, auth: AuthOutcome)
    ensures Gate(s, auth).Success? <==> ConfigComplete(s) && auth.Authenticated?
    ensures Gate(s, auth).Success? ==> Gate(s, auth).value == TokenCredentials(auth.accessToken, "Bearer")
  {
    ValidatorAcceptsExactlyComplete(s);
  }

  /** Incomplete settings fail with the validator's message, whatever
      authentication would have answered. */
  lemma GateRejectsIncompleteSettings(s: EmbedSettings, auth: AuthOutcome, e: ConfigError)
    requires Applies(s, e) && Fails(s, e) && EarlierChecksPass(s, e)
    ensures Gate(s, auth) == Failure(InvalidConfig(e))
  {
    FirstFailingCheckIsReported(s, e);
  }

  /** The calls GetTokenCredentials issues: authentication is attempted
      only once validation has passed. */
  function AuthenticationCalls(s: EmbedSettings): seq<RemoteCall> {
    if WebConfigErrors(s).None? then [AuthenticationCall(s)] else []
  }

  // ----- What each workflow does once the credentials are in hand -----
  // Each predicate relates the descriptor(s) and the call log before the
  // workflow's try block to the outcome, the descriptor(s) and the log after.

  /** EmbedReport after selection: read the chosen report's dataset flags
      into the descriptor, request the token, fill in token, URL and id. */
  predicate ChosenReportEffect(
    s: EmbedSettings, report: Report, username: string, roles: string, api: PowerBIApi,
    before: EmbedConfig, calls0: seq<RemoteCall>, ok: bool, after: EmbedConfig, calls1: seq<RemoteCall>)
  {
    var ws := s.workspaceId;
    var fetched := calls0 + [GetDataset(ws, report.datasetId)];
    match api.dataset(report.datasetId)
    case HttpError(f) =>
      !ok && after == before.(errorMessage := Some(RemoteCallFailed(f))) && calls1 == fetched
    case Ok(dataset) =>
      var request := TokenRequestFor(username, roles, report.datasetId);
      var flagged := before.(
        isEffectiveIdentityRequired := dataset.isEffectiveIdentityRequired,
        isEffectiveIdentityRolesRequired := dataset.isEffectiveIdentityRolesRequired);
      && calls1 == fetched + [GenerateReportToken(ws, report.id, request)]
      && match api.reportToken(report.id, request)
         case HttpError(f) => !ok && after == flagged.(errorMessage := Some(RemoteCallFailed(f)))
         case Ok(None) => !ok && after == flagged.(errorMessage := Some(TokenGenerationFailed))
         case Ok(Some(token)) =>
           ok && after == flagged.(embedToken := Some(token), embedUrl := Some(report.embedUrl), id := Some(report.id))
  }

  /** EmbedReport after the gate: list the reports, fail on an empty
      listing or a ReportId nothing matches, otherwise embed the selection. */
  predicate ReportEffect(
    s: EmbedSettings, username: string, roles: string, api: PowerBIApi,
    before: EmbedConfig, calls0: seq<RemoteCall>, ok: bool, after: EmbedConfig, calls1: seq<RemoteCall>)
  {
    var listed := calls0 + [ListReports(s.workspaceId)];
    match api.reports
    case HttpError(f) =>
      !ok && after == before.(errorMessage := Some(RemoteCallFailed(f))) && calls1 == listed
    case Ok(reports) =>
      if |reports| == 0 then
        !ok && after == before.(errorMessage := Some(NoReports)) && calls1 == listed
      else
        match SelectReport(reports, s.reportId)
        case None =>
          !ok && after == before.(errorMessage := Some(NoSuchReport)) && calls1 == listed
        case Some(i) =>
          ChosenReportEffect(s, reports[i], username, roles, api, before, listed, ok, after, calls1)
  }

  /** EmbedDashboard after the gate: the first dashboard, a viewer token;
      success replaces the descriptor by a fresh one holding token, URL and id. */
  predicate DashboardEffect(
    s: EmbedSettings, api: PowerBIApi,
    before: EmbedConfig, calls0: seq<RemoteCall>, ok: bool, after: EmbedConfig, calls1: seq<RemoteCall>)
  {
    var ws := s.workspaceId;
    var listed := calls0 + [ListDashboards(ws)];
    match api.dashboards
    case HttpError(f) =>
      !ok && after == before.(errorMessage := Some(RemoteCallFailed(f))) && calls1 == listed
    case Ok(dashboards) =>
      if |dashboards| == 0 then
        !ok && after == before.(errorMessage := Some(NoDashboards)) && calls1 == listed
      else
        var dashboard := dashboards[0];
        && calls1 == listed + [GenerateDashboardToken(ws, dashboard.id, ViewRequest)]
        && match api.dashboardToken(dashboard.id, ViewRequest)
           case HttpError(f) => !ok && after == before.(errorMessage := Some(RemoteCallFailed(f)))
           case Ok(None) => !ok && after == before.(errorMessage := Some(TokenGenerationFailed))
           case Ok(Some(token)) =>
             ok && after == EmptyEmbedConfig.(embedToken := Some(token), embedUrl := Some(dashboard.embedUrl),
                                              id := Some(dashboard.id))
  }

  /** The tile id EmbedTile requests a token for: that of the first tile, or null. */
  function FirstTileId(tiles: seq<Tile>): Option<string> {
    if |tiles| == 0 then None else Some(tiles[0].id)
  }

  /** EmbedTile after the gate: first dashboard, its first tile, a viewer
      token. HTTP errors go to the report descriptor, the other failures
      to the tile descriptor; success replaces the tile descriptor. */
  predicate TileEffect(
    s: EmbedSettings, api: PowerBIApi,
    before: EmbedConfig, tileBefore: TileEmbedConfig, calls0: seq<RemoteCall>,
    ok: bool, after: EmbedConfig, tileAfter: TileEmbedConfig, calls1: seq<RemoteCall>)
  {
    var ws := s.workspaceId;
    var listed := calls0 + [ListDashboards(ws)];
    match api.dashboards
    case HttpError(f) =>
      && !ok && calls1 == listed && tileAfter == tileBefore
      && after == before.(errorMessage := Some(RemoteCallFailed(f)))
    case Ok(dashboards) =>
      if |dashboards| == 0 then
        && !ok && calls1 == listed && after == before
        && tileAfter == tileBefore.(errorMessage := Some(NoDashboards))
      else
        var dashboard := dashboards[0];
        var tiled := listed + [ListTiles(ws, dashboard.id)];
        match api.tiles(dashboard.id)
        case HttpError(f) =>
          && !ok && calls1 == tiled && tileAfter == tileBefore
          && after == before.(errorMessage := Some(RemoteCallFailed(f)))
        case Ok(tiles) =>
          var tileId := FirstTileId(tiles);
          && calls1 == tiled + [GenerateTileToken(ws, dashboard.id, tileId, ViewRequest)]
          && match api.tileToken(dashboard.id, tileId, ViewRequest)
             case HttpError(f) =>
               && !ok && tileAfter == tileBefore
               && after == before.(errorMessage := Some(RemoteCallFailed(f)))
             case Ok(None) =>
               && !ok && after == before
               && tileAfter == tileBefore.(errorMessage := Some(TokenGenerationFailed))
             case Ok(Some(token)) =>
               && ok && |tiles| > 0 && after == before
               && tileAfter == TileEmbedConfig(Some(tiles[0].id), Some(tiles[0].embedUrl), Some(token),
                                               Some(dashboard.id), None)
  }

  /** The tile token service answers with a token only for a tile that
      exists: EmbedTile dereferences the first tile once it has a token, and
      would throw on an empty tile list. */
  predicate TileTokenNeedsTile(api: PowerBIApi) {
    match api.dashboards
    case HttpError(_) => true
    case Ok(dashboards) =>
      |dashboards| == 0 ||
      match api.tiles(dashboards[0].id)
      case HttpError(_) => true
      case Ok(tiles) =>
        |tiles| > 0 ||
        match api.tileToken(dashboards[0].id, None, ViewRequest)
        case Ok(Some(_)) => false
        case _ => true
  }

  // ----- What the workflow effects promise -----

  /** An empty listing, or a ReportId no report matches, fails before any
      dataset or token request is issued. */
  lemma ReportFailsBeforeAnyRequest(
    s: EmbedSettings, username: string, roles: string, api: PowerBIApi,
    before: EmbedConfig, calls0: seq<RemoteCall>, ok: bool, after: EmbedConfig, calls1: seq<RemoteCall>)
    requires ReportEffect(s, username, roles, api, before, calls0, ok, after, calls1)
    requires api.reports.Ok?
    requires |api.reports.value| == 0 || SelectReport(api.reports.value, s.reportId).None?
    ensures !ok && calls1 == calls0 + [ListReports(s.workspaceId)]
    ensures after == before.(errorMessage := Some(if |api.reports.value| == 0 then NoReports else NoSuchReport))
    ensures forall k :: |calls0| <= k < |calls1| ==> !IsTokenRequest(calls1[k]) && !calls1[k].GetDataset?
  {
  }

  /** A successful report embed used the selected report, sent the token
      request built for it, and kept the previous error message; a failed
      one set an error and left token, URL and id alone. */
  lemma ReportOutcome(
    s: EmbedSettings, username: string, roles: string, api: PowerBIApi,
    before: EmbedConfig, calls0: seq<RemoteCall>, ok: bool, after: EmbedConfig, calls1: seq<RemoteCall>)
    requires ReportEffect(s, username, roles, api, before, calls0, ok, after, calls1)
    ensures ok ==>
      && api.reports.Ok? && SelectReport(api.reports.value, s.reportId).Some?
      && var report := api.reports.value[SelectReport(api.reports.value, s.reportId).value];
      && api.dataset(report.datasetId).Ok?
      && var dataset := api.dataset(report.datasetId).value;
      && var request := TokenRequestFor(username, roles, report.datasetId);
      && calls1 == calls0 + [ListReports(s.workspaceId), GetDataset(s.workspaceId, report.datasetId),
                             GenerateReportToken(s.workspaceId, report.id, request)]
      && api.reportToken(report.id, request).Ok?
      && after.embedToken == api.reportToken(report.id, request).value
      && after.embedToken.Some?
      && after.embedUrl == Some(report.embedUrl)
      && after.id == Some(report.id)
      && after.isEffectiveIdentityRequired == dataset.isEffectiveIdentityRequired
      && after.isEffectiveIdentityRolesRequired == dataset.isEffectiveIdentityRolesRequired
      && after.errorMessage == before.errorMessage
    ensures !ok ==>
      && after.errorMessage.Some?
      && after.embedToken == before.embedToken
      && after.embedUrl == before.embedUrl
      && after.id == before.id
  {
    if api.reports.Ok? && |api.reports.value| > 0 && SelectReport(api.reports.value, s.reportId).Some? {
      var report := api.reports.value[SelectReport(api.reports.value, s.reportId).value];
      var listed := calls0 + [ListReports(s.workspaceId)];
      assert ChosenReportEffect(s, report, username, roles, api, before, listed, ok, after, calls1);
      if ok {
        var request := TokenRequestFor(username, roles, report.datasetId);
        assert calls1 == listed + [GetDataset(s.workspaceId, report.datasetId)]
                               + [GenerateReportToken(s.workspaceId, report.id, request)];
      }
    }
  }

  /** A successful dashboard embed leaves only token, URL and id of the
      first dashboard, clearing any earlier error and flags; a failure
      changes the error message alone. */
  lemma DashboardOutcome(
    s: EmbedSettings, api: PowerBIApi,
    before: EmbedConfig, calls0: seq<RemoteCall>, ok: bool, after: EmbedConfig, calls1: seq<RemoteCall>)
    requires DashboardEffect(s, api, before, calls0, ok, after, calls1)
    ensures ok ==>
      && api.dashboards.Ok? && |api.dashboards.value| > 0
      && after.id == Some(api.dashboards.value[0].id)
      && after.embedUrl == Some(api.dashboards.value[0].embedUrl)
      && after.embedToken.Some?
      && after.errorMessage == None
      && after.isEffectiveIdentityRequired == None && after.isEffectiveIdentityRolesRequired == None
    ensures !ok ==> after.errorMessage.Some? && after == before.(errorMessage := after.errorMessage)
    ensures forall k :: |calls0| <= k < |calls1| ==> !calls1[k].ListTiles? && !calls1[k].GenerateReportToken?
  {
  }

  /** The tile workflow's descriptor effects: success replaces the tile
      descriptor and leaves the report descriptor alone; an HTTP error
      lands in the report descriptor only; the other failures in the tile
      descriptor only. */
  lemma TileOutcome(
    s: EmbedSettings, api: PowerBIApi,
    before: EmbedConfig, tileBefore: TileEmbedConfig, calls0: seq<RemoteCall>,
    ok: bool, after: EmbedConfig, tileAfter: TileEmbedConfig, calls1: seq<RemoteCall>)
    requires TileEffect(s, api, before, tileBefore, calls0, ok, after, tileAfter, calls1)
    ensures ok ==>
      && after == before
      && api.dashboards.Ok? && |api.dashboards.value| > 0
      && tileAfter.dashboardId == Some(api.dashboards.value[0].id)
      && tileAfter.embedToken.Some? && tileAfter.errorMessage == None
    ensures !ok ==>
      || (&& tileAfter == tileBefore
          && after == before.(errorMessage := after.errorMessage)
          && after.errorMessage.Some? && after.errorMessage.value.RemoteCallFailed?)
      || (&& after == before
          && tileAfter == tileBefore.(errorMessage := tileAfter.errorMessage)
          && tileAfter.errorMessage in {Some(NoDashboards), Some(TokenGenerationFailed)})
  {
  }

  class EmbedService {
    const settings: EmbedSettings
    var tokenCredentials: Option<TokenCredentials>
    var embedConfig: EmbedConfig
    var tileEmbedConfig: TileEmbedConfig
    /** Every foreign call issued so far, in order. */
    ghost var calls: seq<RemoteCall>

    constructor (settings: EmbedSettings)
      ensures this.settings == settings
      ensures tokenCredentials == None
      ensures embedConfig == EmptyEmbedConfig && tileEmbedConfig == EmptyTileEmbedConfig
      ensures calls == []
    {
      this.settings := settings;
      tokenCredentials := None;
      embedConfig := EmptyEmbedConfig;
      tileEmbedConfig := EmptyTileEmbedConfig;
      calls := [];
    }

    /** GetTokenCredentials: validate, then authenticate. A failure writes
        the descriptor's error; success sets the credentials only. */
    method GetTokenCredentials(auth: AuthOutcome) returns (ok: bool)
      modifies this
      ensures ok == Gate(settings, auth).Success?
      ensures calls == old(calls) + AuthenticationCalls(settings)
      ensures tileEmbedConfig == old(tileEmbedConfig)
      ensures ok ==> tokenCredentials == Some(Gate(settings, auth).value) && embedConfig == old(embedConfig)
      ensures !ok ==> tokenCredentials == old(tokenCredentials)
      ensures !ok ==> embedConfig == old(embedConfig).(errorMessage := Some(Gate(settings, auth).error))
    {
      var error := WebConfigErrors(settings);
      if error.Some? {
        embedConfig := embedConfig.(errorMessage := Some(InvalidConfig(error.value)));
        return false;
      }
      calls := calls + [AuthenticationCall(settings)];
      match auth
      case Threw(message) =>
        embedConfig := embedConfig.(errorMessage := Some(AuthenticationException(message)));
        return false;
      case NoResult =>
        embedConfig := embedConfig.(errorMessage := Some(AuthenticationFailed));
        return false;
      case Authenticated(accessToken) =>
        tokenCredentials := Some(TokenCredentials(accessToken, "Bearer"));
        return true;
    }

    /** EmbedReport(username, roles): the gate, then the report workflow. */
    method EmbedReport(username: string, roles: string, auth: AuthOutcome, api: PowerBIApi)
      returns (ok: bool)
      modifies this
      ensures tileEmbedConfig == old(tileEmbedConfig)
      ensures Gate(settings, auth).Failure? ==>
        && !ok
        && tokenCredentials == old(tokenCredentials)
        && embedConfig == old(embedConfig).(errorMessage := Some(Gate(settings, auth).error))
        && calls == old(calls) + AuthenticationCalls(settings)
      ensures Gate(settings, auth).Success? ==>
        && tokenCredentials == Some(Gate(settings, auth).value)
        && ReportEffect(settings, username, roles, api,
                        old(embedConfig), old(calls) + [AuthenticationCall(settings)], ok, embedConfig, calls)
    {
      var getCredentialsResult := GetTokenCredentials(auth);
      if !getCredentialsResult {
        return false;
      }
      ok := EmbedReportInWorkspace(username, roles, api);
    }

    /** The try block of EmbedReport: list, check, select. */
    method EmbedReportInWorkspace(username: string, roles: string, api: PowerBIApi) returns (ok: bool)
      modifies this
      ensures tokenCredentials == old(tokenCredentials) && tileEmbedConfig == old(tileEmbedConfig)
      ensures ReportEffect(settings, username, roles, api, old(embedConfig), old(calls), ok, embedConfig, calls)
    {
      calls := calls + [ListReports(settings.workspaceId)];
      if api.reports.HttpError? {
        embedConfig := embedConfig.(errorMessage := Some(RemoteCallFailed(api.reports.failure)));
        return false;
      }
      var reports := api.reports.value;
      if |reports| == 0 {
        embedConfig := embedConfig.(errorMessage := Some(NoReports));
        return false;
      }
      var selected := SelectReport(reports, settings.reportId);
      if selected.None? {
        embedConfig := embedConfig.(errorMessage := Some(NoSuchReport));
        return false;
      }
      ok := EmbedChosenReport(reports[selected.value], username, roles, api);
    }

    /** The rest of EmbedReport's try block: dataset flags, token request
        with the effective identity, descriptor update. */
    method EmbedChosenReport(report: Report, username: string, roles: string, api: PowerBIApi)
      returns (ok: bool)
      modifies this
      ensures tokenCredentials == old(tokenCredentials) && tileEmbedConfig == old(tileEmbedConfig)
      ensures ChosenReportEffect(settings, report, username, roles, api, old(embedConfig), old(calls),
                                 ok, embedConfig, calls)
    {
      var ws := settings.workspaceId;
      calls := calls + [GetDataset(ws, report.datasetId)];
      var datasets := api.dataset(report.datasetId);
      if datasets.HttpError? {
        embedConfig := embedConfig.(errorMessage := Some(RemoteCallFailed(datasets.failure)));
        return false;
      }
      embedConfig := embedConfig.(
        isEffectiveIdentityRequired := datasets.value.isEffectiveIdentityRequired,
        isEffectiveIdentityRolesRequired := datasets.value.isEffectiveIdentityRolesRequired);
      var generateTokenRequestParameters: TokenRequest;
      if !IsBlank(username) {
        var rls := EffectiveIdentity(username, [report.datasetId], None, None);
        if !IsBlank(roles) {
          var rolesList: seq<string> := [];
          rolesList := rolesList + Split(roles, ',');
          assert rolesList == Split(roles, ',');
          rls := rls.(roles := Some(rolesList));
        }
        rls := rls.(customData := Some("BR001"));
        generateTokenRequestParameters := TokenRequest("view", Some([rls]));
      } else {
        generateTokenRequestParameters := ViewRequest;
      }
      assert generateTokenRequestParameters == TokenRequestFor(username, roles, report.datasetId);
      calls := calls + [GenerateReportToken(ws, report.id, generateTokenRequestParameters)];
      var tokenResponse := api.reportToken(report.id, generateTokenRequestParameters);
      if tokenResponse.HttpError? {
        embedConfig := embedConfig.(errorMessage := Some(RemoteCallFailed(tokenResponse.failure)));
        return false;
      }
      if tokenResponse.value.None? {
        embedConfig := embedConfig.(errorMessage := Some(TokenGenerationFailed));
        return false;
      }
      embedConfig := embedConfig.(
        embedToken := tokenResponse.value,
        embedUrl := Some(report.embedUrl),
        id := Some(report.id));
      return true;
    }

    /** EmbedDashboard: the gate, then the dashboard workflow. */
    method EmbedDashboard(auth: AuthOutcome, api: PowerBIApi) returns (ok: bool)
      modifies this
      ensures tileEmbedConfig == old(tileEmbedConfig)
      ensures Gate(settings, auth).Failure? ==>
        && !ok
        && tokenCredentials == old(tokenCredentials)
        && embedConfig == old(embedConfig).(errorMessage := Some(Gate(settings, auth).error))
        && calls == old(calls) + AuthenticationCalls(settings)
      ensures Gate(settings, auth).Success? ==>
        && tokenCredentials == Some(Gate(settings, auth).value)
        && DashboardEffect(settings, api, old(embedConfig), old(calls) + [AuthenticationCall(settings)],
                           ok, embedConfig, calls)
    {
      var getCredentialsResult := GetTokenCredentials(auth);
      if !getCredentialsResult {
        return false;
      }
      ok := EmbedDashboardInWorkspace(api);
    }

    /** The try block of EmbedDashboard. */
    method EmbedDashboardInWorkspace(api: PowerBIApi) returns (ok: bool)
      modifies this
      ensures tokenCredentials == old(tokenCredentials) && tileEmbedConfig == old(tileEmbedConfig)
      ensures DashboardEffect(settings, api, old(embedConfig), old(calls), ok, embedConfig, calls)
    {
      var ws := settings.workspaceId;
      calls := calls + [ListDashboards(ws)];
      if api.dashboards.HttpError? {
        embedConfig := embedConfig.(errorMessage := Some(RemoteCallFailed(api.dashboards.failure)));
        return false;
      }
      var dashboards := api.dashboards.value;
      if |dashboards| == 0 {
        embedConfig := embedConfig.(errorMessage := Some(NoDashboards));
        return false;
      }
      var dashboard := dashboards[0];
      calls := calls + [GenerateDashboardToken(ws, dashboard.id, ViewRequest)];
      var tokenResponse := api.dashboardToken(dashboard.id, ViewRequest);
      if tokenResponse.HttpError? {
        embedConfig := embedConfig.(errorMessage := Some(RemoteCallFailed(tokenResponse.failure)));
        return false;
      }
      if tokenResponse.value.None? {
        embedConfig := embedConfig.(errorMessage := Some(TokenGenerationFailed));
        return false;
      }
      embedConfig := EmptyEmbedConfig.(
        embedToken := tokenResponse.value,
        embedUrl := Some(dashboard.embedUrl),
        id := Some(dashboard.id));
      return true;
    }

    /** EmbedTile: the gate, whose error is copied to the tile descriptor,
        then the tile workflow. */
    method EmbedTile(auth: AuthOutcome, api: PowerBIApi) returns (ok: bool)
      requires TileTokenNeedsTile(api)
      modifies this
      ensures Gate(settings, auth).Failure? ==>
        && !ok
        && tokenCredentials == old(tokenCredentials)
        && embedConfig == old(embedConfig).(errorMessage := Some(Gate(settings, auth).error))
        && tileEmbedConfig == old(tileEmbedConfig).(errorMessage := Some(Gate(settings, auth).error))
        && calls == old(calls) + AuthenticationCalls(settings)
      ensures Gate(settings, auth).Success? ==>
        && tokenCredentials == Some(Gate(settings, auth).value)
        && TileEffect(settings, api, old(embedConfig), old(tileEmbedConfig),
                      old(calls) + [AuthenticationCall(settings)], ok, embedConfig, tileEmbedConfig, calls)
    {
      var getCredentialsResult := GetTokenCredentials(auth);
      if !getCredentialsResult {
        tileEmbedConfig := tileEmbedConfig.(errorMessage := embedConfig.errorMessage);
        return false;
      }
      ok := EmbedTileInWorkspace(api);
    }

    /** The try block of EmbedTile. */
    method EmbedTileInWorkspace(api: PowerBIApi) returns (ok: bool)
      requires TileTokenNeedsTile(api)
      modifies this
      ensures tokenCredentials == old(tokenCredentials)
      ensures TileEffect(settings, api, old(embedConfig), old(tileEmbedConfig), old(calls),
                         ok, embedConfig, tileEmbedConfig, calls)
    {
      var ws := settings.workspaceId;
      calls := calls + [ListDashboards(ws)];
      if api.dashboards.HttpError? {
        embedConfig := embedConfig.(errorMessage := Some(RemoteCallFailed(api.dashboards.failure)));
        return false;
      }
      var dashboards := api.dashboards.value;
      if |dashboards| == 0 {
        tileEmbedConfig := tileEmbedConfig.(errorMessage := Some(NoDashboards));
        return false;
      }
      var dashboard := dashboards[0];
      calls := calls + [ListTiles(ws, dashboard.id)];
      var tiles := api.tiles(dashboard.id);
      if tiles.HttpError? {
        embedConfig := embedConfig.(errorMessage := Some(RemoteCallFailed(tiles.failure)));
        return false;
      }
      var tileId := FirstTileId(tiles.value);
      calls := calls + [GenerateTileToken(ws, dashboard.id, tileId, ViewRequest)];
      var tokenResponse := api.tileToken(dashboard.id, tileId, ViewRequest);
      if tokenResponse.HttpError? {
        embedConfig := embedConfig.(errorMessage := Some(RemoteCallFailed(tokenResponse.failure)));
        return false;
      }
      if tokenResponse.value.None? {
        tileEmbedConfig := tileEmbedConfig.(errorMessage := Some(TokenGenerationFailed));
        return false;
      }
      var tile := tiles.value[0];
      tileEmbedConfig := TileEmbedConfig(Some(tile.id), Some(tile.embedUrl), tokenResponse.value,
                                         Some(dashboard.id), None);
      return true;
    }
  }

  // ----- Callers: what a sequence of calls leaves behind -----

  /** A report embed that fails on an empty listing, followed by one that
      succeeds, leaves the stale error next to the new token. */
  method ReportErrorOutlivesSuccess(
    s: EmbedSettings, accessToken: string, report: Report, dataset: Dataset, token: EmbedToken,
    empty: PowerBIApi, working: PowerBIApi)
    returns (ok: bool, error: Option<EmbedError>, id: Option<string>)
    requires ConfigComplete(s) && IsBlank(s.reportId)
    requires empty.reports == Ok([])
    requires working.reports == Ok([report]) && working.dataset(report.datasetId) == Ok(dataset)
    requires working.reportToken(report.id, ViewRequest) == Ok(Some(token))
    ensures ok && error == Some(NoReports) && id == Some(report.id)
  {
    var auth := Authenticated(accessToken);
    GateOpensExactly(s, auth);
    var service := new EmbedService(s);
    var config0 := service.embedConfig;
    ghost var calls0 := service.calls + [AuthenticationCall(s)];
    var first := service.EmbedReport("", "", auth, empty);
    ReportFailsBeforeAnyRequest(s, "", "", empty, config0, calls0, first, service.embedConfig, service.calls);
    var config1 := service.embedConfig;
    ghost var calls1 := service.calls + [AuthenticationCall(s)];
    ok := service.EmbedReport("", "", auth, working);
    assert TokenRequestFor("", "", report.datasetId) == ViewRequest;
    ReportOutcome(s, "", "", working, config1, calls1, ok, service.embedConfig, service.calls);
    error := service.embedConfig.errorMessage;
    id := service.embedConfig.id;
  }

  /** A successful dashboard embed wipes the error a failed report embed
      left in the shared descriptor. */
  method DashboardClearsReportError(
    s: EmbedSettings, accessToken: string, dashboard: Dashboard, token: EmbedToken, api: PowerBIApi)
    returns (failed: Option<EmbedError>, ok: bool, error: Option<EmbedError>)
    requires ConfigComplete(s)
    requires api.reports == Ok([])
    requires api.dashboards == Ok([dashboard]) && api.dashboardToken(dashboard.id, ViewRequest) == Ok(Some(token))
    ensures failed == Some(NoReports)
    ensures ok && error == None
  {
    ValidatorAcceptsExactlyComplete(s);
    var service := new EmbedService(s);
    var first := service.EmbedReport("", "", Authenticated(accessToken), api);
    failed := service.embedConfig.errorMessage;
    ok := service.EmbedDashboard(Authenticated(accessToken), api);
    error := service.embedConfig.errorMessage;
  }

  /** With settings the validator rejects, a tile embed fails with the
      validator's message in both descriptors and no credentials. */
  method TileSharesCredentialError(s: EmbedSettings, auth: AuthOutcome, api: PowerBIApi, e: ConfigError)
    returns (ok: bool, reportError: Option<EmbedError>, tileError: Option<EmbedError>,
             credentials: Option<TokenCredentials>)
    requires TileTokenNeedsTile(api)
    requires Applies(s, e) && Fails(s, e) && EarlierChecksPass(s, e)
    ensures !ok && credentials == None
    ensures reportError == Some(InvalidConfig(e)) && tileError == reportError
  {
    GateRejectsIncompleteSettings(s, auth, e);
    var service := new EmbedService(s);
    ok := service.EmbedTile(auth, api);
    reportError := service.embedConfig.errorMessage;
    tileError := service.tileEmbedConfig.errorMessage;
    credentials := service.tokenCredentials;
  }
}
