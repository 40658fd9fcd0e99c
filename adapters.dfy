/**
 * The social-login adapter that runs after the identity provider has
 * authenticated a user and before the user is logged in: it reads the
 * email, tenant, names and job title from the account's extra data,
 * refuses logins outside the configured domain and tenant allowlists or
 * off the roster of active users, records the normalized email on the
 * login and fills blank names of the roster user.
 */
module Adapters {
  import opened Wrappers
  import opened Text
  import opened Accounts

  /** The account's `extra_data`: claim name to claim value. */
  type ExtraData = map<string, string>

  /** `extra.get(key)` is truthy: present and not empty. */
  predicate Truthy(extra: ExtraData, key: string) {
    key in extra && extra[key] != ""
  }

  /** The value of the first key of `keys` whose claim is truthy, if any. */
  function FirstTruthy(extra: ExtraData, keys: seq<string>): (r: Option<string>)
    ensures r.None? <==> forall i :: 0 <= i < |keys| ==> !Truthy(extra, keys[i])
    ensures r.Some? ==> exists i :: 0 <= i < |keys| && FirstTruthyAt(extra, keys, i) && r.value == extra[keys[i]]
    decreases |keys|
  {
    if keys == [] then None
    else if Truthy(extra, keys[0]) then
      assert FirstTruthyAt(extra, keys, 0);
      Some(extra[keys[0]])
    else
      var r := FirstTruthy(extra, keys[1..]);
      if r.Some? then
        var i :| 0 <= i < |keys[1..]| && FirstTruthyAt(extra, keys[1..], i) && r.value == extra[keys[1..][i]];
        assert FirstTruthyAt(extra, keys, i + 1);
        r
      else
        assert forall i :: 1 <= i < |keys| ==> keys[i] == keys[1..][i - 1];
        r
  }

  /** `keys[i]` is truthy and no earlier key is. */
  predicate FirstTruthyAt(extra: ExtraData, keys: seq<string>, i: int)
    requires 0 <= i < |keys|
  {
    Truthy(extra, keys[i]) && forall j :: 0 <= j < i ==> !Truthy(extra, keys[j])
  }

  /** The claims `_extract_email` tries, in order. */
  const EmailKeys: seq<string> := ["email", "mail", "userPrincipalName", "preferred_username"]

  /** The claims `_extract_tenant_id` tries, in order. */
  const TenantKeys: seq<string> := ["tid", "tenantId", "tenant_id"]

  /**
   * `_extract_email`: the first truthy email claim, else the email allauth
   * set on the login's user (`userEmail`), which may be absent or empty.
   */
  function ExtractEmail(extra: ExtraData, userEmail: Option<string>): (r: Option<string>)
    ensures FirstTruthy(extra, EmailKeys).Some? ==> r == FirstTruthy(extra, EmailKeys)
    ensures FirstTruthy(extra, EmailKeys).None? ==> r == userEmail
  {
    var claim := FirstTruthy(extra, EmailKeys);
    if claim.Some? then claim else userEmail
  }

  /** An `email` claim wins over every other source of the address. */
  lemma EmailClaimFirst(extra: ExtraData, userEmail: Option<string>)
    requires Truthy(extra, "email")
    ensures ExtractEmail(extra, userEmail) == Some(extra["email"])
  {
    var r := FirstTruthy(extra, EmailKeys);
    var i :| 0 <= i < |EmailKeys| && FirstTruthyAt(extra, EmailKeys, i) && r.value == extra[EmailKeys[i]];
    assert i == 0;
  }

  /**
   * `_extract_tenant_id`: the first truthy tenant claim, stripped.  The
   * search stops at the first truthy claim even when it strips to "".
   */
  function ExtractTenantId(extra: ExtraData): (r: Option<string>)
    ensures r.None? <==> forall i :: 0 <= i < |TenantKeys| ==> !Truthy(extra, TenantKeys[i])
    ensures r.Some? ==> r == Some(Strip(FirstTruthy(extra, TenantKeys).value))
  {
    var claim := FirstTruthy(extra, TenantKeys);
    if claim.Some? then Some(Strip(claim.value)) else None
  }

  /** `extra.get(a) or extra.get(b) or ""`. */
  function EitherClaim(extra: ExtraData, a: string, b: string): string {
    if Truthy(extra, a) then extra[a] else if Truthy(extra, b) then extra[b] else ""
  }

  /**
   * `_extract_name_parts`: the given and family name claims; only when
   * both are empty, the display name's first word and the rest of its
   * words joined by single spaces.  Both results are stripped.
   */
  function ExtractNameParts(extra: ExtraData): (string, string) {
    var first := EitherClaim(extra, "given_name", "givenName");
    var last := EitherClaim(extra, "family_name", "familyName");
    if first == "" && last == "" then
      var parts := Words(EitherClaim(extra, "name", "displayName"));
      if parts == [] then (Strip(first), Strip(last))
      else if |parts| == 1 then (Strip(parts[0]), Strip(last))
      else (Strip(parts[0]), Strip(Join(parts[1..], " ")))
    else (Strip(first), Strip(last))
  }

  /** Words joined by single spaces have no whitespace at either end. */
  lemma {:induction false} JoinWordsNoEdges(words: seq<string>)
    requires words != []
    requires forall k :: 0 <= k < |words| ==> words[k] != [] && NoSpace(words[k])
    ensures var s := Join(words, " "); s != [] && !IsSpace(s[0]) && !IsSpace(s[|s| - 1])
    decreases |words|
  {
    if |words| > 1 {
      JoinWordsNoEdges(words[1..]);
      var rest := Join(words[1..], " ");
      var s := words[0] + " " + rest;
      assert s[0] == words[0][0];
      assert s[|s| - 1] == rest[|rest| - 1];
    }
  }

  /**
   * When neither name claim is given, a display name with at least two
   * words yields exactly its first word and the remaining words joined
   * by single spaces, unchanged by the final strip.
   */
  lemma DisplayNameSplit(extra: ExtraData)
    requires EitherClaim(extra, "given_name", "givenName") == ""
    requires EitherClaim(extra, "family_name", "familyName") == ""
    requires |Words(EitherClaim(extra, "name", "displayName"))| >= 2
    ensures var words := Words(EitherClaim(extra, "name", "displayName"));
      ExtractNameParts(extra) == (words[0], Join(words[1..], " "))
  {
    var words := Words(EitherClaim(extra, "name", "displayName"));
    StripNoEdges(words[0]);
    JoinWordsNoEdges(words[1..]);
    StripNoEdges(Join(words[1..], " "));
  }

  /** A given or family name claim means the display name is not read at all. */
  lemma NameClaimsWin(extra: ExtraData, display: string)
    requires EitherClaim(extra, "given_name", "givenName") != "" || EitherClaim(extra, "family_name", "familyName") != ""
    ensures ExtractNameParts(extra) == ExtractNameParts(extra["name" := display])
  {
    var other := extra["name" := display];
    assert EitherClaim(other, "given_name", "givenName") == EitherClaim(extra, "given_name", "givenName");
    assert EitherClaim(other, "family_name", "familyName") == EitherClaim(extra, "family_name", "familyName");
  }

  /** `_extract_job_title`: the job title claim, stripped, or "". */
  function ExtractJobTitle(extra: ExtraData): string {
    Strip(EitherClaim(extra, "jobTitle", "job_title"))
  }

  /** The settings the adapter reads. */
  datatype Settings = Settings(allowedEmailDomains: seq<string>, allowedTenantIds: seq<string>)

  /** `{d.strip().lower() for d in allowed_domains if d.strip()}`. */
  function DomainAllowlist(domains: seq<string>): (r: set<string>)
    ensures forall d :: d in r <==> exists i :: 0 <= i < |domains| && Strip(domains[i]) != "" && d == Lower(Strip(domains[i]))
  {
    set i | 0 <= i < |domains| && Strip(domains[i]) != "" :: Lower(Strip(domains[i]))
  }

  /** `{t.strip() for t in allowed_tenants if t.strip()}`. */
  function TenantAllowlist(tenants: seq<string>): (r: set<string>)
    ensures forall t :: t in r <==> exists i :: 0 <= i < |tenants| && Strip(tenants[i]) != "" && t == Strip(tenants[i])
    ensures "" !in r
  {
    set i | 0 <= i < |tenants| && Strip(tenants[i]) != "" :: Strip(tenants[i])
  }

  /** Why the adapter refuses a login (`PermissionDenied`). */
  datatype Denial = NoEmail | DomainNotAllowed | TenantNotAllowed | NotOnRoster

  /** The allowlist decision of `pre_social_login`. */
  datatype Decision = Denied(reason: Denial) | Admitted(email: string)

  /** The domain check passes: no domain allowlist, or the text after the last "@" is on it. */
  predicate DomainOk(settings: Settings, email: string) {
    settings.allowedEmailDomains == [] || Lower(AfterLast(email, '@')) in DomainAllowlist(settings.allowedEmailDomains)
  }

  /** The tenant check passes: no tenant allowlist, or a non-empty tenant id on it. */
  predicate TenantOk(settings: Settings, extra: ExtraData) {
    var tid := ExtractTenantId(extra);
    settings.allowedTenantIds == [] || (tid.Some? && tid.value != "" && tid.value in TenantAllowlist(settings.allowedTenantIds))
  }

  /**
   * The checks of `pre_social_login` in order: an email must be found; it
   * is stripped and lower-cased; then the domain allowlist, the tenant
   * allowlist and the roster of active users (`activeEmails`) must all
   * accept it.
   */
  function Decide(extra: ExtraData, userEmail: Option<string>, settings: Settings, activeEmails: set<string>)
    : (r: Decision)
    ensures var raw := ExtractEmail(extra, userEmail);
      (r == Denied(NoEmail) <==> raw.None? || raw.value == "")
      && (r.Admitted? <==>
            raw.Some? && raw.value != "" && DomainOk(settings, Lower(Strip(raw.value)))
            && TenantOk(settings, extra) && Lower(Strip(raw.value)) in activeEmails)
      && (r.Admitted? ==> r.email == Lower(Strip(raw.value)))
  {
    var raw := ExtractEmail(extra, userEmail);
    if raw.None? || raw.value == "" then Denied(NoEmail)
    else
      var email := Lower(Strip(raw.value));
      if !DomainOk(settings, email) then Denied(DomainNotAllowed)
      else if !TenantOk(settings, extra) then Denied(TenantNotAllowed)
      else if email !in activeEmails then Denied(NotOnRoster)
      else Admitted(email)
  }

  /** A domain allowlist whose entries are all blank refuses every login. */
  lemma BlankDomainListDeniesAll(extra: ExtraData, userEmail: Option<string>, settings: Settings, activeEmails: set<string>)
    requires settings.allowedEmailDomains != []
    requires forall i :: 0 <= i < |settings.allowedEmailDomains| ==> Strip(settings.allowedEmailDomains[i]) == ""
    ensures Decide(extra, userEmail, settings, activeEmails).Denied?
  {
    assert DomainAllowlist(settings.allowedEmailDomains) == {};
  }

  /**
   * With a tenant allowlist, a `tid` claim of only whitespace refuses the
   * login even when a later tenant claim would be on the list.
   */
  lemma BlankTidDenies(extra: ExtraData, userEmail: Option<string>, settings: Settings, activeEmails: set<string>)
    requires settings.allowedTenantIds != []
    requires "tid" in extra && extra["tid"] != "" && AllSpace(extra["tid"])
    ensures !Decide(extra, userEmail, settings, activeEmails).Admitted?
  {
    var claim := FirstTruthy(extra, TenantKeys);
    var i :| 0 <= i < |TenantKeys| && FirstTruthyAt(extra, TenantKeys, i) && claim.value == extra[TenantKeys[i]];
    assert Truthy(extra, TenantKeys[0]);
    assert i == 0;
    StripShape(extra["tid"]);
  }

  /** Without allowlists, exactly the roster's active addresses get in, matched after strip and lower-casing. */
  lemma NoAllowlistsRosterOnly(extra: ExtraData, userEmail: Option<string>, activeEmails: set<string>)
    requires ExtractEmail(extra, userEmail).Some? && ExtractEmail(extra, userEmail).value != ""
    ensures var email := Lower(Strip(ExtractEmail(extra, userEmail).value));
      Decide(extra, userEmail, Settings([], []), activeEmails)
        == if email in activeEmails then Admitted(email) else Denied(NotOnRoster)
  {
  }

  /** Fill a blank field: `offered` replaces `current` only when `current` is empty and `offered` is not. */
  function FillBlank(current: string, offered: string): (r: string)
    ensures current != "" ==> r == current
    ensures current == "" ==> r == offered
  {
    if offered != "" && current == "" then offered else current
  }

  /** Filling is idempotent: a second sync with the same claims changes nothing. */
  lemma FillBlankIdempotent(current: string, offered: string)
    ensures FillBlank(FillBlank(current, offered), offered) == FillBlank(current, offered)
  {
  }

  /**
   * `_sync_profile_details`: the user's first and last name and the
   * profile's title are filled from the claims only where they are blank;
   * no profile means no title update.
   */
  method SyncProfileDetails(user: User, extra: ExtraData, profile: EmployeeProfile?)
    modifies user, profile
    ensures user.firstName == FillBlank(old(user.firstName), ExtractNameParts(extra).0)
    ensures user.lastName == FillBlank(old(user.lastName), ExtractNameParts(extra).1)
    ensures user.email == old(user.email) && user.isActive == old(user.isActive) && user.groups == old(user.groups)
    ensures profile != null ==> profile.title == FillBlank(old(profile.title), ExtractJobTitle(extra))
    ensures profile != null ==>
      profile.initials == old(profile.initials) && profile.active == old(profile.active)
      && profile.terminationDate == old(profile.terminationDate)
  {
    var names := ExtractNameParts(extra);
    FillNames(user, names.0, names.1);
    if profile != null && profile.title == "" {
      var jobTitle := ExtractJobTitle(extra);
      if jobTitle != "" {
        profile.title := jobTitle;
      }
    }
  }

  /** The name half of `_sync_profile_details`: each extracted name fills a blank user name. */
  method FillNames(user: User, first: string, last: string)
    modifies user
    ensures user.firstName == FillBlank(old(user.firstName), first)
    ensures user.lastName == FillBlank(old(user.lastName), last)
    ensures user.email == old(user.email) && user.isActive == old(user.isActive) && user.groups == old(user.groups)
  {
    if first != "" && user.firstName == "" {
      user.firstName := first;
    }
    if last != "" && user.lastName == "" {
      user.lastName := last;
    }
  }

  /** The parts of `sociallogin` the adapter reads and writes. */
  class SocialLogin {
    const extra: ExtraData
    const isExisting: bool
    var userEmail: Option<string>
    var connected: bool

    /** A login with the given claims and user email, not yet connected. */
    constructor (extra: ExtraData, isExisting: bool, userEmail: Option<string>)
      ensures this.extra == extra && this.isExisting == isExisting && this.userEmail == userEmail && !connected
    {
      this.extra, this.isExisting, this.userEmail := extra, isExisting, userEmail;
      connected := false;
    }
  }

  /** How `pre_social_login` ends. */
  datatype LoginOutcome =
    | Refused(reason: Denial)
    | Proceed                   // an existing social account: allauth continues the login
    | ConnectedAndRedirected    // a new social account: connected to the roster user, logged in, redirected

  /** The emails of the active users: `User.objects.filter(email=email, is_active=True)`. */
  function ActiveEmails(users: set<User>): (r: set<string>)
    reads users
    ensures forall e :: e in r <==> exists u :: u in users && u.isActive && u.email == e
  {
    set u | u in users && u.isActive :: u.email
  }

  /**
   * The admitted branch of `pre_social_login`: store the email on the
   * login, fill the user's blank names, and connect a new social account.
   */
  method Admit(login: SocialLogin, user: User, email: string) returns (outcome: LoginOutcome)
    modifies login, user
    ensures login.userEmail == Some(email)
    ensures outcome == (if login.isExisting then Proceed else ConnectedAndRedirected)
    ensures login.connected == (old(login.connected) || !login.isExisting)
    ensures user.firstName == FillBlank(old(user.firstName), ExtractNameParts(login.extra).0)
    ensures user.lastName == FillBlank(old(user.lastName), ExtractNameParts(login.extra).1)
    ensures user.email == old(user.email) && user.isActive == old(user.isActive) && user.groups == old(user.groups)
  {
    login.userEmail := Some(email);
    SyncProfileDetails(user, login.extra, null);
    if !login.isExisting {
      login.connected := true;
      outcome := ConnectedAndRedirected;
    } else {
      outcome := Proceed;
    }
  }

  /**
   * `pre_social_login`: refuses as `Decide` says and changes nothing then;
   * otherwise stores the normalized email on the login, fills the roster
   * user's blank names (the title sync reads `profile_or_none`, which no
   * model defines, so no profile is passed) and connects a new social
   * account to that user.
   */
  method PreSocialLogin(login: SocialLogin, settings: Settings, users: set<User>)
    returns (outcome: LoginOutcome, ghost chosen: User?)
    modifies login, users
    ensures var d := Decide(login.extra, old(login.userEmail), settings, old(ActiveEmails(users)));
      (outcome.Refused? <==> d.Denied?)
      && (d.Denied? ==> outcome == Refused(d.reason) && chosen == null
                        && login.userEmail == old(login.userEmail) && login.connected == old(login.connected))
      && (d.Admitted? ==> login.userEmail == Some(d.email)
                          && (outcome == ConnectedAndRedirected <==> !login.isExisting)
                          && login.connected == (old(login.connected) || !login.isExisting)
                          && chosen != null && chosen in users && chosen.email == d.email && chosen.isActive
                          && chosen.firstName == FillBlank(old(chosen.firstName), ExtractNameParts(login.extra).0)
                          && chosen.lastName == FillBlank(old(chosen.lastName), ExtractNameParts(login.extra).1))
    ensures forall u :: u in users && u != chosen ==> u.firstName == old(u.firstName) && u.lastName == old(u.lastName)
    ensures forall u :: u in users ==> u.email == old(u.email) && u.isActive == old(u.isActive) && u.groups == old(u.groups)
  {
    var d := Decide(login.extra, login.userEmail, settings, ActiveEmails(users));
    if d.Denied? {
      outcome, chosen := Refused(d.reason), null;
    } else {
      var user :| user in users && user.isActive && user.email == d.email;
      outcome := Admit(login, user, d.email);
      chosen := user;
    }
  }
}
