/** The activation server as a transition system over its four tables. Each handler is one
    atomic step; ids, codes and token hashes are fresh and distinct, so invites and refresh
    tokens are keyed by the hash they are looked up by. Times are in seconds. */
module ActivationServer {
  import opened JsValues
  import opened Strings

  datatype RequestStatus = Pending | Approved | Redeemed | Rejected

  datatype Request = Request(
    installation: string, status: RequestStatus, inviteId: Option<string>, createdAt: int, expiresAt: int)

  datatype Invite = Invite(installation: string, maxUses: int, usedCount: int, expiresAt: Option<int>)

  datatype License = License(
    installation: string, revoked: bool, issuedAt: int, exp: int, offlineGraceExp: int, lastRefreshAt: int)

  datatype Token = Token(licenseId: string, installation: string, expiresAt: int, revokedAt: Option<int>)

  datatype Source = ViaRequest(requestId: string, inviteId: Option<string>) | ViaCode(codeId: string)

  /** What the audit trail tells about successful calls. */
  datatype AuditRow = Issued(licenseId: string, source: Source) | Refreshed(licenseId: string, tokenHash: string)

  datatype State = State(
    requests: map<string, Request>,
    invites: map<string, Invite>,
    licenses: map<string, License>,
    tokens: map<string, Token>,
    quota: int,
    inviteDays: int,
    audit: seq<AuditRow>)

  datatype Config = Config(appIds: set<string>, licenseValidDays: int, offlineGraceHours: int)

  datatype Outcome = Done | BadRequest | Unauthorized | Forbidden | NotFound | Gone

  const HOUR := 3600
  const DAY := 24 * HOUR
  const REQUEST_VALID_HOURS := 24
  const TOKEN_VALID_DAYS := 30

  function Clamp(x: int, lo: int, hi: int): int
    requires lo <= hi
  {
    if x < lo then lo else if x > hi then hi else x
  }

  // ----- requests -----

  predicate IsOpen(r: Request, installation: string, now: int) {
    r.installation == installation && r.status == Pending && r.expiresAt > now
  }

  /** `picked` is what the query for the newest open request of an installation returns. */
  ghost predicate IsNewestOpen(s: State, installation: string, now: int, picked: Option<string>) {
    match picked
    case None => forall id :: id in s.requests ==> !IsOpen(s.requests[id], installation, now)
    case Some(id) =>
      && id in s.requests && IsOpen(s.requests[id], installation, now)
      && forall other :: other in s.requests && IsOpen(s.requests[other], installation, now)
           ==> s.requests[other].createdAt <= s.requests[id].createdAt
  }

  predicate CountsAsApproved(r: Request) {
    r.status == Approved || r.status == Redeemed
  }

  function ApprovedInstallations(s: State): set<string> {
    set id | id in s.requests && CountsAsApproved(s.requests[id]) :: s.requests[id].installation
  }

  predicate WithinQuota(s: State) {
    s.quota > 0 && |ApprovedInstallations(s)| < s.quota
  }

  function SetStatus(s: State, id: string, status: RequestStatus): State
    requires id in s.requests
  {
    s.(requests := s.requests[id := s.requests[id].(status := status)])
  }

  function CreateRequest(s: State, cfg: Config, now: int, installation: string, appId: string, newId: string,
                         picked: Option<string>): (State, Outcome)
    requires picked.Some? ==> picked.value in s.requests
  {
    if appId !in cfg.appIds then (s, BadRequest)
    else if picked.Some? then
      (if WithinQuota(s) then SetStatus(s, picked.value, Approved) else s, Done)
    else
      var status := if WithinQuota(s) then Approved else Pending;
      var request := Request(installation, status, None, now, now + REQUEST_VALID_HOURS * HOUR);
      (s.(requests := s.requests[newId := request]), Done)
  }

  function Approve(s: State, now: int, requestId: string, newInvite: string): (State, Outcome) {
    if requestId !in s.requests then (s, NotFound)
    else if s.requests[requestId].status != Pending then (s, BadRequest)
    else
      var r := s.requests[requestId];
      var invite := Invite(r.installation, 1, 0, Some(now + Clamp(s.inviteDays, 1, 90) * DAY));
      (s.(invites := s.invites[newInvite := invite],
          requests := s.requests[requestId := r.(status := Approved, inviteId := Some(newInvite))]),
       Done)
  }

  function Reject(s: State, requestId: string): (State, Outcome) {
    if requestId in s.requests then (SetStatus(s, requestId, Rejected), Done) else (s, Done)
  }

  // ----- licences -----

  function Issue(s: State, cfg: Config, now: int, installation: string, licenseId: string, tokenHash: string,
                 source: Source): State {
    var exp := now + cfg.licenseValidDays * DAY;
    var license := License(installation, false, now, exp, exp + cfg.offlineGraceHours * HOUR, now);
    var token := Token(licenseId, installation, now + TOKEN_VALID_DAYS * DAY, None);
    s.(licenses := s.licenses[licenseId := license],
       tokens := s.tokens[tokenHash := token],
       audit := s.audit + [Issued(licenseId, source)])
  }

  /** Counts one use of an invite, unless it is used up. */
  function UseInvite(s: State, inviteId: string): State {
    if inviteId in s.invites && s.invites[inviteId].usedCount < s.invites[inviteId].maxUses then
      var invite := s.invites[inviteId];
      s.(invites := s.invites[inviteId := invite.(usedCount := invite.usedCount + 1)])
    else s
  }

  function Redeem(s: State, cfg: Config, now: int, requestId: string, installation: string, appId: string,
                  licenseId: string, tokenHash: string): (State, Outcome)
  {
    if appId !in cfg.appIds then (s, BadRequest)
    else if requestId !in s.requests then (s, NotFound)
    else
      var r := s.requests[requestId];
      if r.status != Approved || r.installation != installation then (s, Forbidden)
      else
        var used := if r.inviteId.Some? && r.inviteId.value != "" then UseInvite(s, r.inviteId.value) else s;
        var issued := Issue(used, cfg, now, installation, licenseId, tokenHash, ViaRequest(requestId, r.inviteId));
        (issued.(requests := s.requests[requestId := r.(status := Redeemed)]), Done)
  }

  function RedeemByCode(s: State, cfg: Config, now: int, code: string, installation: string, appId: string,
                        licenseId: string, tokenHash: string): (State, Outcome)
  {
    if appId !in cfg.appIds then (s, BadRequest)
    else if code !in s.invites || s.invites[code].installation != installation then (s, NotFound)
    else
      var invite := s.invites[code];
      if invite.usedCount >= invite.maxUses then (s, Gone)
      else if invite.expiresAt.Some? && invite.expiresAt.value < now then (s, Gone)
      else (Issue(UseInvite(s, code), cfg, now, installation, licenseId, tokenHash, ViaCode(code)), Done)
  }

  function RefreshLicense(s: State, cfg: Config, now: int, tokenHash: string, licenseId: string,
                          installation: string, newTokenHash: string): (State, Outcome)
  {
    if tokenHash !in s.tokens || s.tokens[tokenHash].revokedAt.Some? || s.tokens[tokenHash].expiresAt <= now then
      (s, Unauthorized)
    else
      var token := s.tokens[tokenHash];
      if token.licenseId != licenseId || token.installation != installation then (s, Unauthorized)
      else if licenseId !in s.licenses then (s, NotFound)
      else
        var license := s.licenses[licenseId];
        if license.revoked || license.installation != installation then (s, Forbidden)
        else
          var exp := now + cfg.licenseValidDays * DAY;
          var rotated := s.tokens[tokenHash := token.(revokedAt := Some(now))]
                                 [newTokenHash := Token(licenseId, installation, now + TOKEN_VALID_DAYS * DAY, None)];
          (s.(tokens := rotated,
              licenses := s.licenses[licenseId := license.(
                exp := exp, offlineGraceExp := exp + cfg.offlineGraceHours * HOUR, lastRefreshAt := now)],
              audit := s.audit + [Refreshed(licenseId, tokenHash)]),
           Done)
  }

  function Revoke(s: State, licenseId: string): (State, Outcome) {
    if licenseId in s.licenses
    then (s.(licenses := s.licenses[licenseId := s.licenses[licenseId].(revoked := true)]), Done)
    else (s, Done)
  }

  /** `char::is_whitespace`. */
  predicate IsWhitespace(c: char) {
    || '\t' <= c <= '\r' || c == ' ' || c == '\U{85}' || c == '\U{a0}' || c == '\U{1680}'
    || '\U{2000}' <= c <= '\U{200a}' || c == '\U{2028}' || c == '\U{2029}' || c == '\U{202f}'
    || c == '\U{205f}' || c == '\U{3000}'
  }

  function CreateInvite(s: State, now: int, installationField: string, maxUses: Option<int>,
                        expiresDays: Option<int>, newInvite: string): (State, Outcome) {
    var installation := Trim(installationField, IsWhitespace);
    if installation == "" then (s, BadRequest)
    else
      var days := expiresDays.GetOr(Clamp(s.inviteDays, 1, 90));
      var invite := Invite(installation, Clamp(maxUses.GetOr(1), 1, 20), 0, Some(now + Clamp(days, 1, 90) * DAY));
      (s.(invites := s.invites[newInvite := invite]), Done)
  }

  const DEFAULT_INVITE_DAYS := 7

  function SetSettings(s: State, quota: Option<int>, inviteDays: Option<int>): (State, Outcome) {
    (s.(quota := Clamp(quota.GetOr(0), 0, 1_000_000),
        inviteDays := Clamp(inviteDays.GetOr(DEFAULT_INVITE_DAYS), 1, 90)), Done)
  }

  // ----- calls -----

  datatype Call =
    | CallCreateRequest(installation: string, appId: string, newId: string, picked: Option<string>)
    | CallApprove(requestId: string, newInvite: string)
    | CallReject(requestId: string)
    | CallRedeem(requestId: string, installation: string, appId: string, licenseId: string, tokenHash: string)
    | CallRedeemByCode(code: string, installation: string, appId: string, licenseId: string, tokenHash: string)
    | CallRefresh(tokenHash: string, licenseId: string, installation: string, newTokenHash: string)
    | CallRevoke(licenseId: string)
    | CallCreateInvite(installation: string, maxUses: Option<int>, expiresDays: Option<int>, newInvite: string)
    | CallSettings(quota: Option<int>, inviteDays: Option<int>)

  /** The ids a call generates are new, and its query result is a possible one. */
  ghost predicate Possible(s: State, now: int, call: Call) {
    match call
    case CallCreateRequest(installation, _, newId, picked) =>
      newId !in s.requests && IsNewestOpen(s, installation, now, picked)
    case CallApprove(_, newInvite) => newInvite !in s.invites && newInvite != ""
    case CallRedeem(_, _, _, licenseId, tokenHash) => licenseId !in s.licenses && tokenHash !in s.tokens
    case CallRedeemByCode(_, _, _, licenseId, tokenHash) => licenseId !in s.licenses && tokenHash !in s.tokens
    case CallRefresh(_, _, _, newTokenHash) => newTokenHash !in s.tokens
    case CallCreateInvite(_, _, _, newInvite) => newInvite !in s.invites && newInvite != ""
    case _ => true
  }

  ghost function Handle(s: State, cfg: Config, now: int, call: Call): (State, Outcome)
    requires Possible(s, now, call)
  {
    match call
    case CallCreateRequest(installation, appId, newId, picked) =>
      CreateRequest(s, cfg, now, installation, appId, newId, picked)
    case CallApprove(requestId, newInvite) => Approve(s, now, requestId, newInvite)
    case CallReject(requestId) => Reject(s, requestId)
    case CallRedeem(requestId, installation, appId, licenseId, tokenHash) =>
      Redeem(s, cfg, now, requestId, installation, appId, licenseId, tokenHash)
    case CallRedeemByCode(code, installation, appId, licenseId, tokenHash) =>
      RedeemByCode(s, cfg, now, code, installation, appId, licenseId, tokenHash)
    case CallRefresh(tokenHash, licenseId, installation, newTokenHash) =>
      RefreshLicense(s, cfg, now, tokenHash, licenseId, installation, newTokenHash)
    case CallRevoke(licenseId) => Revoke(s, licenseId)
    case CallCreateInvite(installation, maxUses, expiresDays, newInvite) =>
      CreateInvite(s, now, installation, maxUses, expiresDays, newInvite)
    case CallSettings(quota, inviteDays) => SetSettings(s, quota, inviteDays)
  }

  // ----- the handlers over the tables -----

  class Database {
    const cfg: Config
    var requests: map<string, Request>
    var invites: map<string, Invite>
    var licenses: map<string, License>
    var tokens: map<string, Token>
    var quota: int
    var inviteDays: int
    var audit: seq<AuditRow>

    constructor (cfg: Config)
      ensures Tables() == State(map[], map[], map[], map[], 0, DEFAULT_INVITE_DAYS, []) && this.cfg == cfg
    {
      this.cfg := cfg;
      requests, invites, licenses, tokens := map[], map[], map[], map[];
      quota, inviteDays, audit := 0, DEFAULT_INVITE_DAYS, [];
    }

    ghost function Tables(): State
      reads this
    {
      State(requests, invites, licenses, tokens, quota, inviteDays, audit)
    }

    method CountApproved() returns (count: nat)
      ensures count == |ApprovedInstallations(Tables())|
    {
      var installations := set id | id in requests && CountsAsApproved(requests[id]) :: requests[id].installation;
      assert installations == ApprovedInstallations(Tables());
      count := |installations|;
    }

    /** The query for the newest open request of an installation. */
    method NewestOpen(now: int, installation: string) returns (picked: Option<string>)
      ensures IsNewestOpen(Tables(), installation, now, picked)
    {
      picked := None;
      var todo := requests.Keys;
      while todo != {}
        invariant todo <= requests.Keys
        invariant picked.None? ==>
                    forall id :: id in requests && id !in todo ==> !IsOpen(requests[id], installation, now)
        invariant picked.Some? ==>
                    && picked.value in requests && IsOpen(requests[picked.value], installation, now)
                    && forall id :: id in requests && id !in todo && IsOpen(requests[id], installation, now) ==>
                         requests[id].createdAt <= requests[picked.value].createdAt
        decreases todo
      {
        var id :| id in todo;
        var request := requests[id];
        if IsOpen(request, installation, now) {
          if picked.None? || request.createdAt > requests[picked.value].createdAt {
            picked := Some(id);
          }
        }
        todo := todo - {id};
      }
    }

    method CreateActivationRequest(now: int, installation: string, appId: string, newId: string)
      returns (outcome: Outcome)
      modifies this`requests
      ensures if appId !in cfg.appIds then Tables() == old(Tables()) && outcome == BadRequest
              else exists picked ::
                && IsNewestOpen(old(Tables()), installation, now, picked)
                && (Tables(), outcome) == CreateRequest(old(Tables()), cfg, now, installation, appId, newId, picked)
    {
      if appId !in cfg.appIds {
        return BadRequest;
      }
      var picked := NewestOpen(now, installation);
      var approved := CountApproved();
      var autoApprove := quota > 0 && approved < quota;
      assert autoApprove == WithinQuota(Tables());
      hide IsNewestOpen, WithinQuota;
      ghost var before := Tables();
      assert IsNewestOpen(before, installation, now, picked);
      if picked.Some? {
        if autoApprove {
          requests := requests[picked.value := requests[picked.value].(status := Approved)];
        }
        return Done;
      }
      requests := requests[newId :=
        Request(installation, if autoApprove then Approved else Pending, None, now, now + REQUEST_VALID_HOURS * HOUR)];
      outcome := Done;
    }

    method AdminApprove(now: int, requestId: string, newInvite: string) returns (outcome: Outcome)
      modifies this`requests, this`invites
      ensures (Tables(), outcome) == Approve(old(Tables()), now, requestId, newInvite)
    {
      if requestId !in requests {
        return NotFound;
      }
      var request := requests[requestId];
      if request.status != Pending {
        return BadRequest;
      }
      invites := invites[newInvite :=
        Invite(request.installation, 1, 0, Some(now + Clamp(inviteDays, 1, 90) * DAY))];
      requests := requests[requestId := request.(status := Approved, inviteId := Some(newInvite))];
      outcome := Done;
    }

    method AdminReject(requestId: string) returns (outcome: Outcome)
      modifies this`requests
      ensures (Tables(), outcome) == Reject(old(Tables()), requestId)
    {
      if requestId in requests {
        requests := requests[requestId := requests[requestId].(status := Rejected)];
      }
      outcome := Done;
    }

    method CountUse(inviteId: string)
      modifies this`invites
      ensures Tables() == UseInvite(old(Tables()), inviteId)
    {
      if inviteId in invites && invites[inviteId].usedCount < invites[inviteId].maxUses {
        invites := invites[inviteId := invites[inviteId].(usedCount := invites[inviteId].usedCount + 1)];
      }
    }

    method InsertLicense(now: int, installation: string, licenseId: string, tokenHash: string, source: Source)
      modifies this`licenses, this`tokens, this`audit
      ensures Tables() == Issue(old(Tables()), cfg, now, installation, licenseId, tokenHash, source)
    {
      var exp := now + cfg.licenseValidDays * DAY;
      licenses := licenses[licenseId :=
        License(installation, false, now, exp, exp + cfg.offlineGraceHours * HOUR, now)];
      tokens := tokens[tokenHash := Token(licenseId, installation, now + TOKEN_VALID_DAYS * DAY, None)];
      audit := audit + [Issued(licenseId, source)];
    }

    method RedeemRequest(now: int, requestId: string, installation: string, appId: string, licenseId: string,
                         tokenHash: string)
      returns (outcome: Outcome)
      modifies this
      ensures (Tables(), outcome) ==
                Redeem(old(Tables()), cfg, now, requestId, installation, appId, licenseId, tokenHash)
    {
      if appId !in cfg.appIds {
        return BadRequest;
      }
      if requestId !in requests {
        return NotFound;
      }
      var request := requests[requestId];
      if request.status != Approved || request.installation != installation {
        return Forbidden;
      }
      if request.inviteId.Some? && request.inviteId.value != "" {
        CountUse(request.inviteId.value);
      }
      InsertLicense(now, installation, licenseId, tokenHash, ViaRequest(requestId, request.inviteId));
      requests := requests[requestId := request.(status := Redeemed)];
      outcome := Done;
    }

    method RedeemInvite(now: int, code: string, installation: string, appId: string, licenseId: string,
                        tokenHash: string)
      returns (outcome: Outcome)
      modifies this`invites, this`licenses, this`tokens, this`audit
      ensures (Tables(), outcome) ==
                RedeemByCode(old(Tables()), cfg, now, code, installation, appId, licenseId, tokenHash)
    {
      if appId !in cfg.appIds {
        return BadRequest;
      }
      if code !in invites || invites[code].installation != installation {
        return NotFound;
      }
      var invite := invites[code];
      if invite.usedCount >= invite.maxUses {
        return Gone;
      }
      if invite.expiresAt.Some? && invite.expiresAt.value < now {
        return Gone;
      }
      CountUse(code);
      InsertLicense(now, installation, licenseId, tokenHash, ViaCode(code));
      outcome := Done;
    }

    method Refresh(now: int, tokenHash: string, licenseId: string, installation: string, newTokenHash: string)
      returns (outcome: Outcome)
      modifies this`licenses, this`tokens, this`audit
      ensures (Tables(), outcome) ==
                RefreshLicense(old(Tables()), cfg, now, tokenHash, licenseId, installation, newTokenHash)
    {
      if tokenHash !in tokens || tokens[tokenHash].revokedAt.Some? || tokens[tokenHash].expiresAt <= now {
        return Unauthorized;
      }
      if tokens[tokenHash].licenseId != licenseId || tokens[tokenHash].installation != installation {
        return Unauthorized;
      }
      if licenseId !in licenses {
        return NotFound;
      }
      var license := licenses[licenseId];
      if license.revoked || license.installation != installation {
        return Forbidden;
      }
      var exp := now + cfg.licenseValidDays * DAY;
      tokens := tokens[tokenHash := tokens[tokenHash].(revokedAt := Some(now))];
      tokens := tokens[newTokenHash := Token(licenseId, installation, now + TOKEN_VALID_DAYS * DAY, None)];
      licenses := licenses[licenseId :=
        license.(exp := exp, offlineGraceExp := exp + cfg.offlineGraceHours * HOUR, lastRefreshAt := now)];
      audit := audit + [Refreshed(licenseId, tokenHash)];
      outcome := Done;
    }

    method AdminRevoke(licenseId: string) returns (outcome: Outcome)
      modifies this`licenses
      ensures (Tables(), outcome) == Revoke(old(Tables()), licenseId)
    {
      if licenseId in licenses {
        licenses := licenses[licenseId := licenses[licenseId].(revoked := true)];
      }
      outcome := Done;
    }

    method AdminCreateInvite(now: int, installationField: string, maxUses: Option<int>, expiresDays: Option<int>,
                             newInvite: string)
      returns (outcome: Outcome)
      modifies this`invites
      ensures (Tables(), outcome) ==
                CreateInvite(old(Tables()), now, installationField, maxUses, expiresDays, newInvite)
    {
      var installation := Trim(installationField, IsWhitespace);
      if installation == "" {
        return BadRequest;
      }
      var defaultDays := Clamp(inviteDays, 1, 90);
      var days := Clamp(expiresDays.GetOr(defaultDays), 1, 90);
      invites := invites[newInvite :=
        Invite(installation, Clamp(maxUses.GetOr(1), 1, 20), 0, Some(now + days * DAY))];
      outcome := Done;
    }

    method AdminSettings(autoApproveQuota: Option<int>, inviteExpiresDays: Option<int>) returns (outcome: Outcome)
      modifies this`quota, this`inviteDays
      ensures (Tables(), outcome) == SetSettings(old(Tables()), autoApproveQuota, inviteExpiresDays)
    {
      quota := Clamp(autoApproveQuota.GetOr(0), 0, 1_000_000);
      inviteDays := Clamp(inviteExpiresDays.GetOr(DEFAULT_INVITE_DAYS), 1, 90);
      outcome := Done;
    }
  }
}
