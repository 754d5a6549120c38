/** The connection settings record and the configuration validator
    (EmbedService.GetWebConfigErrors). */
module Settings {
  import opened Wrappers
  import opened Text

  /** EmbedSettings: loaded once, never changed. A null field is modelled as "". */
  datatype EmbedSettings = EmbedSettings(
    authorityUrl: string,
    applicationId: string,
    workspaceId: string,
    reportId: string,
    apiUrl: string,
    resourceUrl: string,
    authenticationType: string,
    tenant: string,
    applicationSecret: string,
    username: string,
    password: string)

  /** The authentication mode that needs a username and a password; every
      other mode needs an application secret and a tenant. The comparison
      is ordinal and case-sensitive. */
  const MasterUser: string := "MasterUser"

  predicate IsMasterUser(s: EmbedSettings) {
    s.authenticationType == MasterUser
  }

  /** The checks of the validator, one constructor per message it can return. */
  datatype ConfigError =
    | ApplicationIdEmpty
    | ApplicationIdNotGuid
    | WorkspaceIdEmpty
    | WorkspaceIdNotGuid
    | UsernameEmpty
    | PasswordEmpty
    | ApplicationSecretEmpty
    | TenantEmpty
  {
    function Message(): string {
      match this
      case ApplicationIdEmpty =>
        "ApplicationId is empty. please register your application as Native app in https://dev.powerbi.com/apps and fill client Id in web.config."
      case ApplicationIdNotGuid =>
        "ApplicationId must be a Guid object. please register your application as Native app in https://dev.powerbi.com/apps and fill application Id in web.config."
      case WorkspaceIdEmpty =>
        "WorkspaceId is empty. Please select a group you own and fill its Id in web.config"
      case WorkspaceIdNotGuid =>
        "WorkspaceId must be a Guid object. Please select a workspace you own and fill its Id in web.config"
      case UsernameEmpty =>
        "Username is empty. Please fill Power BI username in web.config"
      case PasswordEmpty =>
        "Password is empty. Please fill password of Power BI username in web.config"
      case ApplicationSecretEmpty =>
        "ApplicationSecret is empty. please register your application as Web app and fill appSecret in web.config."
      case TenantEmpty =>
        "Invalid Tenant. Please fill Tenant ID in Tenant under web.config"
    }
  }

  /** GetWebConfigErrors: None when the settings are usable, otherwise the
      error of the first check that fails. */
  function WebConfigErrors(s: EmbedSettings): Option<ConfigError> {
    if IsBlank(s.applicationId) then Some(ApplicationIdEmpty)
    else if !IsGuid(s.applicationId) then Some(ApplicationIdNotGuid)
    else if IsBlank(s.workspaceId) then Some(WorkspaceIdEmpty)
    else if !IsGuid(s.workspaceId) then Some(WorkspaceIdNotGuid)
    else if IsMasterUser(s) then
      if IsBlank(s.username) then Some(UsernameEmpty)
      else if IsBlank(s.password) then Some(PasswordEmpty)
      else None
    else
      if IsBlank(s.applicationSecret) then Some(ApplicationSecretEmpty)
      else if IsBlank(s.tenant) then Some(TenantEmpty)
      else None
  }

  // ----- An independent statement of what the validator demands -----

  /** The settings are complete for their authentication mode. */
  predicate ConfigComplete(s: EmbedSettings) {
    && !IsBlank(s.applicationId) && IsGuid(s.applicationId)
    && !IsBlank(s.workspaceId) && IsGuid(s.workspaceId)
    && (if IsMasterUser(s)
        then !IsBlank(s.username) && !IsBlank(s.password)
        else !IsBlank(s.applicationSecret) && !IsBlank(s.tenant))
  }

  /** The check is performed for settings in this authentication mode. */
  predicate Applies(s: EmbedSettings, e: ConfigError) {
    match e
    case UsernameEmpty | PasswordEmpty => IsMasterUser(s)
    case ApplicationSecretEmpty | TenantEmpty => !IsMasterUser(s)
    case _ => true
  }

  /** The condition under which the check objects to the settings. */
  predicate Fails(s: EmbedSettings, e: ConfigError) {
    match e
    case ApplicationIdEmpty => IsBlank(s.applicationId)
    case ApplicationIdNotGuid => !IsGuid(s.applicationId)
    case WorkspaceIdEmpty => IsBlank(s.workspaceId)
    case WorkspaceIdNotGuid => !IsGuid(s.workspaceId)
    case UsernameEmpty => IsBlank(s.username)
    case PasswordEmpty => IsBlank(s.password)
    case ApplicationSecretEmpty => IsBlank(s.applicationSecret)
    case TenantEmpty => IsBlank(s.tenant)
  }

  /** Position of the check in the validator's fixed order; the two mode
      branches share positions 4 and 5. */
  function Rank(e: ConfigError): nat {
    match e
    case ApplicationIdEmpty => 0
    case ApplicationIdNotGuid => 1
    case WorkspaceIdEmpty => 2
    case WorkspaceIdNotGuid => 3
    case UsernameEmpty | ApplicationSecretEmpty => 4
    case PasswordEmpty | TenantEmpty => 5
  }

  /** The validator accepts exactly the complete settings. */
  lemma ValidatorAcceptsExactlyComplete(s: EmbedSettings)
    ensures WebConfigErrors(s) == None <==> ConfigComplete(s)
  {
    if IsBlank(s.applicationId) || !IsGuid(s.applicationId) {
    } else if IsBlank(s.workspaceId) || !IsGuid(s.workspaceId) {
    } else if IsMasterUser(s) {
      assert WebConfigErrors(s) == (if IsBlank(s.username) then Some(UsernameEmpty)
        else if IsBlank(s.password) then Some(PasswordEmpty) else None);
    } else {
      assert WebConfigErrors(s) == (if IsBlank(s.applicationSecret) then Some(ApplicationSecretEmpty)
        else if IsBlank(s.tenant) then Some(TenantEmpty) else None);
    }
  }

  /** Every applicable check ranked before `e` passes. */
  predicate EarlierChecksPass(s: EmbedSettings, e: ConfigError) {
    forall e': ConfigError :: Applies(s, e') && Rank(e') < Rank(e) ==> !Fails(s, e')
  }

  /** The validator reports a check exactly when that check applies, fails,
      and every applicable check before it passes. */
  lemma ValidatorReportsFirstFailure(s: EmbedSettings, e: ConfigError)
    ensures WebConfigErrors(s) == Some(e) <==>
      Applies(s, e) && Fails(s, e) && EarlierChecksPass(s, e)
  {
    if WebConfigErrors(s) == Some(e) {
      ReportedCheckIsFirst(s, e);
    }
    if Applies(s, e) && Fails(s, e) && EarlierChecksPass(s, e) {
      FirstFailingCheckIsReported(s, e);
    }
  }

  lemma ReportedCheckIsFirst(s: EmbedSettings, e: ConfigError)
    requires WebConfigErrors(s) == Some(e)
    ensures Applies(s, e) && Fails(s, e) && EarlierChecksPass(s, e)
  {
    forall e': ConfigError | Applies(s, e') && Rank(e') < Rank(e)
      ensures !Fails(s, e')
    {
      if Fails(s, e') {
        match e'
        case ApplicationIdEmpty =>
        case ApplicationIdNotGuid =>
        case WorkspaceIdEmpty =>
        case WorkspaceIdNotGuid =>
        case UsernameEmpty =>
        case PasswordEmpty =>
        case ApplicationSecretEmpty =>
        case TenantEmpty =>
      }
    }
  }

  lemma FirstFailingCheckIsReported(s: EmbedSettings, e: ConfigError)
    requires Applies(s, e) && Fails(s, e) && EarlierChecksPass(s, e)
    ensures WebConfigErrors(s) == Some(e)
  {
    match e
    case ApplicationIdEmpty =>
    case ApplicationIdNotGuid =>
      assert !Fails(s, ApplicationIdEmpty);
    case WorkspaceIdEmpty =>
      assert !Fails(s, ApplicationIdEmpty) && !Fails(s, ApplicationIdNotGuid);
    case WorkspaceIdNotGuid =>
      assert !Fails(s, ApplicationIdEmpty) && !Fails(s, ApplicationIdNotGuid);
      assert !Fails(s, WorkspaceIdEmpty);
    case UsernameEmpty | ApplicationSecretEmpty =>
      assert !Fails(s, ApplicationIdEmpty) && !Fails(s, ApplicationIdNotGuid);
      assert !Fails(s, WorkspaceIdEmpty) && !Fails(s, WorkspaceIdNotGuid);
    case PasswordEmpty =>
      assert !Fails(s, ApplicationIdEmpty) && !Fails(s, ApplicationIdNotGuid);
      assert !Fails(s, WorkspaceIdEmpty) && !Fails(s, WorkspaceIdNotGuid);
      assert !Fails(s, UsernameEmpty);
    case TenantEmpty =>
      assert !Fails(s, ApplicationIdEmpty) && !Fails(s, ApplicationIdNotGuid);
      assert !Fails(s, WorkspaceIdEmpty) && !Fails(s, WorkspaceIdNotGuid);
      assert !Fails(s, ApplicationSecretEmpty);
  }

  /** In "MasterUser" mode the application secret and the tenant are never
      inspected. */
  lemma MasterUserIgnoresSecretAndTenant(s: EmbedSettings, secret: string, tenant: string)
    requires IsMasterUser(s)
    ensures WebConfigErrors(s.(applicationSecret := secret, tenant := tenant)) == WebConfigErrors(s)
  {
    var t := s.(applicationSecret := secret, tenant := tenant);
    assert t.applicationId == s.applicationId && t.workspaceId == s.workspaceId;
    assert t.username == s.username && t.password == s.password && IsMasterUser(t);
  }

  /** In every other mode the username and the password are never inspected. */
  lemma OtherModesIgnoreUsernameAndPassword(s: EmbedSettings, username: string, password: string)
    requires !IsMasterUser(s)
    ensures WebConfigErrors(s.(username := username, password := password)) == WebConfigErrors(s)
  {
    var t := s.(username := username, password := password);
    assert t.applicationId == s.applicationId && t.workspaceId == s.workspaceId;
    assert t.applicationSecret == s.applicationSecret && t.tenant == s.tenant && !IsMasterUser(t);
  }
}
