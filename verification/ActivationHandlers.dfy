/** What each handler of the activation server changes, and when it refuses. */
module ActivationHandlers {
  import opened JsValues
  import opened Strings
  import opened ActivationServer
  import opened ActivationInvariants

  // ----- frames -----

  /** The table has a row for `key` and is otherwise as it was. */
  ghost predicate OnlyAt<V>(before: map<string, V>, after: map<string, V>, key: string) {
    && after.Keys == before.Keys + {key}
    && forall k :: k in before && k != key ==> after[k] == before[k]
  }

  ghost predicate SameSettings(s: State, s': State) {
    s'.quota == s.quota && s'.inviteDays == s.inviteDays
  }

  /** `y` is `x`, moved into the range if it was outside. */
  ghost predicate IsClamped(y: int, x: int, lo: int, hi: int) {
    lo <= y <= hi && (lo <= x <= hi ==> y == x) && (x < lo ==> y == lo) && (x > hi ==> y == hi)
  }

  // ----- licences -----

  /** One licence and one token more: unrevoked, for the installation, from now on. */
  ghost predicate NewLicense(s: State, s': State, cfg: Config, now: int, installation: string, id: string,
                             hash: string)
  {
    && OnlyAt(s.licenses, s'.licenses, id) && OnlyAt(s.tokens, s'.tokens, hash)
    && id !in s.licenses && hash !in s.tokens
    && (var license := s'.licenses[id];
        && license.installation == installation && !license.revoked
        && license.issuedAt == now && license.lastRefreshAt == now
        && license.exp == now + cfg.licenseValidDays * 86_400
        && license.offlineGraceExp == license.exp + cfg.offlineGraceHours * 3_600)
    && IsNewToken(s'.tokens[hash], id, installation, now)
  }

  ghost predicate IsNewToken(token: Token, id: string, installation: string, now: int) {
    && token.licenseId == id && token.installation == installation
    && token.revokedAt == None && token.expiresAt == now + 30 * 86_400
  }

  /** One use more of invite `id`, unless it is used up. */
  ghost predicate OneUseMore(before: map<string, Invite>, after: map<string, Invite>, id: string) {
    if id in before && before[id].usedCount < before[id].maxUses then
      && OnlyAt(before, after, id)
      && after[id].usedCount == before[id].usedCount + 1
      && after[id].maxUses == before[id].maxUses && after[id].installation == before[id].installation
      && after[id].expiresAt == before[id].expiresAt
    else after == before
  }

  /** The request may be redeemed by this caller. */
  ghost predicate MayRedeem(s: State, cfg: Config, requestId: string, installation: string, appId: string) {
    && appId in cfg.appIds && requestId in s.requests
    && s.requests[requestId].status == Approved && s.requests[requestId].installation == installation
  }

  /** The row of the request has this status and is otherwise as it was, like all the others. */
  ghost predicate OnlyStatus(before: map<string, Request>, after: map<string, Request>, id: string,
                             status: RequestStatus)
    requires id in before
  {
    && OnlyAt(before, after, id)
    && after[id].status == status && after[id].installation == before[id].installation
    && after[id].inviteId == before[id].inviteId && after[id].createdAt == before[id].createdAt
    && after[id].expiresAt == before[id].expiresAt
  }

  lemma UseIsCounted(s: State, id: string)
    ensures OneUseMore(s.invites, UseInvite(s, id).invites, id)
  {
  }

  lemma IssueMakesLicense(s: State, cfg: Config, now: int, installation: string, id: string, hash: string,
                          source: Source)
    requires id !in s.licenses && hash !in s.tokens
    ensures NewLicense(s, Issue(s, cfg, now, installation, id, hash, source), cfg, now, installation, id, hash)
  {
  }

  /** A request is redeemed exactly by the installation it was approved for, with a known app. Then
      that installation has one new licence, and the request and at most its invite are used. A
      refusal says why and changes nothing. */
  lemma RedeemSucceedsIff(s: State, cfg: Config, now: int, call: Call)
    requires Possible(s, now, call) && call.CallRedeem?
    ensures var (s', outcome) := Handle(s, cfg, now, call);
            && (outcome == Done <==> MayRedeem(s, cfg, call.requestId, call.installation, call.appId))
            && (outcome != Done ==>
                  && s' == s
                  && outcome == (if call.appId !in cfg.appIds then BadRequest
                                 else if call.requestId !in s.requests then NotFound else Forbidden))
            && (outcome == Done ==>
                  var request := s.requests[call.requestId];
                  && NewLicense(s, s', cfg, now, request.installation, call.licenseId, call.tokenHash)
                  && OnlyStatus(s.requests, s'.requests, call.requestId, Redeemed)
                  && (if request.inviteId.GetOr("") == "" then s'.invites == s.invites
                      else OneUseMore(s.invites, s'.invites, request.inviteId.value))
                  && SameSettings(s, s'))
  {
    if MayRedeem(s, cfg, call.requestId, call.installation, call.appId) {
      var r := s.requests[call.requestId];
      var used := if r.inviteId.Some? && r.inviteId.value != "" then UseInvite(s, r.inviteId.value) else s;
      IssueMakesLicense(
        used, cfg, now, call.installation, call.licenseId, call.tokenHash, ViaRequest(call.requestId, r.inviteId));
      if r.inviteId.Some? {
        UseIsCounted(s, r.inviteId.value);
      }
      hide OneUseMore;
    }
  }

  /** The code may be redeemed by this caller at this time. */
  ghost predicate MayRedeemCode(s: State, cfg: Config, now: int, code: string, installation: string, appId: string) {
    && appId in cfg.appIds && code in s.invites && s.invites[code].installation == installation
    && s.invites[code].usedCount < s.invites[code].maxUses
    && (s.invites[code].expiresAt.Some? ==> now <= s.invites[code].expiresAt.value)
  }

  /** A code is redeemed exactly by the installation it is bound to, with a known app, while it has
      uses left and has not expired. Then that installation has one new licence and the code one use
      less. A refusal says why and changes nothing. */
  lemma RedeemByCodeSucceedsIff(s: State, cfg: Config, now: int, call: Call)
    requires Possible(s, now, call) && call.CallRedeemByCode?
    ensures var (s', outcome) := Handle(s, cfg, now, call);
            && (outcome == Done <==> MayRedeemCode(s, cfg, now, call.code, call.installation, call.appId))
            && (outcome != Done ==>
                  && s' == s
                  && outcome == (if call.appId !in cfg.appIds then BadRequest
                                 else if call.code !in s.invites
                                         || s.invites[call.code].installation != call.installation then NotFound
                                 else Gone))
            && (outcome == Done ==>
                  && NewLicense(s, s', cfg, now, s.invites[call.code].installation, call.licenseId, call.tokenHash)
                  && OneUseMore(s.invites, s'.invites, call.code)
                  && s'.requests == s.requests && SameSettings(s, s'))
  {
    UseIsCounted(s, call.code);
    hide OneUseMore;
    if MayRedeemCode(s, cfg, now, call.code, call.installation, call.appId) {
      IssueMakesLicense(
        UseInvite(s, call.code), cfg, now, call.installation, call.licenseId, call.tokenHash, ViaCode(call.code));
    }
  }

  /** A successful refresh revokes the presented token now, issues one new token and moves the times
      of that licence; nothing else changes. A refusal says why and changes nothing. */
  lemma RefreshChanges(s: State, cfg: Config, now: int, call: Call)
    requires Possible(s, now, call) && call.CallRefresh?
    ensures var (s', outcome) := Handle(s, cfg, now, call);
            var l, t := call.licenseId, call.tokenHash;
            var live := t in s.tokens && s.tokens[t].revokedAt == None && now < s.tokens[t].expiresAt;
            var bound := live && s.tokens[t].licenseId == l && s.tokens[t].installation == call.installation;
            && outcome == (if !bound then Unauthorized
                           else if l !in s.licenses then NotFound
                           else if s.licenses[l].revoked || s.licenses[l].installation != call.installation
                           then Forbidden else Done)
            && (outcome != Done ==> s' == s)
            && (outcome == Done ==> Refreshes(s, s', cfg, now, l, t, call.newTokenHash))
  {
  }

  ghost predicate Refreshes(s: State, s': State, cfg: Config, now: int, l: string, old_: string, new_: string)
    requires l in s.licenses && old_ in s.tokens
  {
    && s'.tokens.Keys == s.tokens.Keys + {new_}
    && (forall k :: k in s.tokens && k != old_ && k != new_ ==> s'.tokens[k] == s.tokens[k])
    && s'.tokens[old_].revokedAt == Some(now) && s'.tokens[old_].licenseId == s.tokens[old_].licenseId
    && IsNewToken(s'.tokens[new_], l, s.licenses[l].installation, now)
    && OnlyAt(s.licenses, s'.licenses, l)
    && (var before, after := s.licenses[l], s'.licenses[l];
        && after.installation == before.installation && after.revoked == before.revoked
        && after.issuedAt == before.issuedAt && after.lastRefreshAt == now
        && after.exp == now + cfg.licenseValidDays * 86_400
        && after.offlineGraceExp == after.exp + cfg.offlineGraceHours * 3_600)
    && s'.requests == s.requests && s'.invites == s.invites && SameSettings(s, s')
  }

  // ----- revocation -----

  /** A revocation revokes that licence and touches nothing else. */
  lemma RevokeRevokes(s: State, cfg: Config, now: int, l: string)
    requires Possible(s, now, CallRevoke(l))
    ensures var (s', outcome) := Handle(s, cfg, now, CallRevoke(l));
            && outcome == Done
            && s'.tokens == s.tokens && s'.requests == s.requests && s'.invites == s.invites && SameSettings(s, s')
            && (if l in s.licenses then
                  OnlyAt(s.licenses, s'.licenses, l) && s'.licenses[l] == s.licenses[l].(revoked := true)
                else s'.licenses == s.licenses)
  {
  }

  /** Once a licence has been revoked it is revoked in every later state of the run, and no refresh
      that names it succeeds or changes anything. */
  lemma RevocationIsFinal(cfg: Config, run: seq<Step>, m: nat, l: string, now: int, call: Call)
    requires IsRun(cfg, run) && m < |run| && IsRun(cfg, run[..m])
    requires run[m].call == CallRevoke(l) && l in After(cfg, run[..m]).licenses
    requires call.CallRefresh? && call.licenseId == l && Possible(After(cfg, run), now, call)
    ensures var s := After(cfg, run);
            && l in s.licenses && s.licenses[l].revoked
            && Handle(s, cfg, now, call).1 != Done && Handle(s, cfg, now, call).0 == s
  {
    assert run[..m + 1][..m] == run[..m] && run[..m + 1][m] == run[m];
    RunsKeepRevocations(cfg, run, m + 1);
    StepOfRun(cfg, run[..m + 1]);
    RevokeRevokes(After(cfg, run[..m]), cfg, run[m].now, l);
    hide Handle, Possible, IsRun, After;
    assert After(cfg, run[..m + 1]).licenses[l].revoked;
    RefreshChanges(After(cfg, run), cfg, now, call);
  }

  lemma StepOfRun(cfg: Config, run: seq<Step>)
    requires run != [] && IsRun(cfg, run)
    ensures var n := |run| - 1;
            && IsRun(cfg, run[..n]) && Possible(After(cfg, run[..n]), run[n].now, run[n].call)
            && After(cfg, run) == Handle(After(cfg, run[..n]), cfg, run[n].now, run[n].call).0
  {
    hide Handle, Possible;
  }

  // ----- requests -----

  /** A pending request of the installation that has not expired. */
  ghost predicate IsWaiting(s: State, id: string, installation: string, now: int) {
    && id in s.requests && s.requests[id].installation == installation
    && s.requests[id].status == Pending && now < s.requests[id].expiresAt
  }

  /** The installations with an approved or redeemed request. */
  ghost predicate AreApproved(installations: set<string>, s: State) {
    forall x :: x in installations <==>
      exists id :: id in s.requests && s.requests[id].installation == x
                   && (s.requests[id].status == Approved || s.requests[id].status == Redeemed)
  }

  /** There is room: a positive quota above the number of approved installations. */
  ghost predicate HasRoom(s: State) {
    exists installations :: AreApproved(installations, s) && 0 < s.quota && |installations| < s.quota
  }

  lemma RoomIsQuota(s: State)
    ensures HasRoom(s) <==> WithinQuota(s)
  {
    var approved := ApprovedInstallations(s);
    assert AreApproved(approved, s);
    forall other | AreApproved(other, s) ensures other == approved {
      assert forall x :: x in other <==> x in approved;
    }
  }

  /** With an unknown app nothing happens. Otherwise the call succeeds and changes requests only: if
      one of the installation is waiting, a newest such request is approved if there is room; if
      none is, a new one is entered that expires in a day, approved if there is room. */
  lemma CreateMeans(s: State, cfg: Config, now: int, call: Call)
    requires Possible(s, now, call) && call.CallCreateRequest?
    ensures var (s', outcome) := Handle(s, cfg, now, call);
            if call.appId !in cfg.appIds then s' == s && outcome == BadRequest
            else
              && outcome == Done
              && s'.invites == s.invites && s'.licenses == s.licenses && s'.tokens == s.tokens && SameSettings(s, s')
              && (if exists id :: IsWaiting(s, id, call.installation, now) then
                    exists id :: IsNewestWaiting(s, id, call.installation, now)
                                 && (if HasRoom(s) then OnlyStatus(s.requests, s'.requests, id, Approved)
                                     else s'.requests == s.requests)
                  else
                    && OnlyAt(s.requests, s'.requests, call.newId)
                    && IsNewRequest(s'.requests[call.newId], call.installation, now, HasRoom(s)))
  {
    RoomIsQuota(s);
    hide WithinQuota, HasRoom;
    if call.picked.Some? {
      assert IsWaiting(s, call.picked.value, call.installation, now);
      assert IsNewestWaiting(s, call.picked.value, call.installation, now);
    } else {
      forall id ensures !IsWaiting(s, id, call.installation, now) {
        assert id in s.requests ==> !IsOpen(s.requests[id], call.installation, now);
      }
    }
  }

  ghost predicate IsNewestWaiting(s: State, id: string, installation: string, now: int) {
    && IsWaiting(s, id, installation, now)
    && forall other :: IsWaiting(s, other, installation, now) ==>
         s.requests[other].createdAt <= s.requests[id].createdAt
  }

  ghost predicate IsNewRequest(request: Request, installation: string, now: int, approved: bool) {
    && request.installation == installation && request.inviteId == None
    && request.status == (if approved then Approved else Pending)
    && request.createdAt == now && request.expiresAt == now + 86_400
  }

  /** A new invite: bound to the installation, unused, for so many uses and days. */
  ghost predicate IsNewInvite(invite: Invite, installation: string, maxUses: int, now: int, days: int) {
    && invite.installation == installation && invite.usedCount == 0 && invite.maxUses == maxUses
    && invite.expiresAt == Some(now + days * 86_400)
  }

  /** Exactly a pending request is approved. It then names a new invite for its installation with a
      single use, which expires after the days set for invites; nothing else changes. */
  lemma ApproveSucceedsIff(s: State, cfg: Config, now: int, call: Call)
    requires Possible(s, now, call) && call.CallApprove?
    ensures var (s', outcome) := Handle(s, cfg, now, call);
            var id := call.requestId;
            && outcome == (if id !in s.requests then NotFound
                           else if s.requests[id].status != Pending then BadRequest else Done)
            && (outcome != Done ==> s' == s)
            && (outcome == Done ==>
                  && OnlyAt(s.requests, s'.requests, id)
                  && s'.requests[id] == s.requests[id].(status := Approved, inviteId := Some(call.newInvite))
                  && OnlyAt(s.invites, s'.invites, call.newInvite)
                  && (exists days :: IsClamped(days, s.inviteDays, 1, 90)
                        && IsNewInvite(s'.invites[call.newInvite], s.requests[id].installation, 1, now, days))
                  && s'.licenses == s.licenses && s'.tokens == s.tokens && SameSettings(s, s'))
  {
    var days := Clamp(s.inviteDays, 1, 90);
    assert IsClamped(days, s.inviteDays, 1, 90);
  }

  /** Any request, whatever its status, is rejected, and nothing else changes. */
  lemma RejectMeans(s: State, cfg: Config, now: int, id: string)
    requires Possible(s, now, CallReject(id))
    ensures var (s', outcome) := Handle(s, cfg, now, CallReject(id));
            && outcome == Done
            && (if id in s.requests then OnlyStatus(s.requests, s'.requests, id, Rejected)
                else s'.requests == s.requests)
            && s'.invites == s.invites && s'.licenses == s.licenses && s'.tokens == s.tokens && SameSettings(s, s')
  {
  }

  /** The days asked for or those set for invites. */
  ghost predicate AreDays(days: int, asked: Option<int>, set_: int) {
    if asked.Some? then IsClamped(days, asked.value, 1, 90) else IsClamped(days, set_, 1, 90)
  }

  ghost predicate ExpiresAfter(invite: Invite, now: int, asked: Option<int>, set_: int) {
    invite.expiresAt.Some? && exists days :: AreDays(days, asked, set_) && invite.expiresAt.value == now + days * 86_400
  }

  /** An invite is made unless the installation is blank: for the trimmed installation, with the
      uses asked for or one, and the days asked for or those set for invites. */
  lemma CreateInviteMeans(s: State, cfg: Config, now: int, call: Call)
    requires Possible(s, now, call) && call.CallCreateInvite?
    ensures var (s', outcome) := Handle(s, cfg, now, call);
            if AllDropped(call.installation, IsWhitespace) then s' == s && outcome == BadRequest
            else
              && outcome == Done && OnlyAt(s.invites, s'.invites, call.newInvite)
              && (var invite := s'.invites[call.newInvite];
                  && IsTrimmed(invite.installation, call.installation, IsWhitespace)
                  && IsClamped(invite.maxUses, call.maxUses.GetOr(1), 1, 20) && invite.usedCount == 0
                  && ExpiresAfter(invite, now, call.expiresDays, s.inviteDays))
              && s'.requests == s.requests && s'.licenses == s.licenses && s'.tokens == s.tokens
              && SameSettings(s, s')
  {
    TrimIsTrimmed(call.installation, IsWhitespace);
    BlankIff(call.installation, IsWhitespace);
    hide Trim, IsTrimmed, AllDropped;
    var days := Clamp(call.expiresDays.GetOr(Clamp(s.inviteDays, 1, 90)), 1, 90);
    assert AreDays(days, call.expiresDays, s.inviteDays);
    hide AreDays;
  }

  /** Both settings are taken over, moved into their ranges; no quota means none and no days a week. */
  lemma SettingsMean(s: State, cfg: Config, now: int, call: Call)
    requires Possible(s, now, call) && call.CallSettings?
    ensures var (s', outcome) := Handle(s, cfg, now, call);
            && outcome == Done
            && IsClamped(s'.quota, call.quota.GetOr(0), 0, 1_000_000)
            && IsClamped(s'.inviteDays, call.inviteDays.GetOr(7), 1, 90)
            && s'.requests == s.requests && s'.invites == s.invites
            && s'.licenses == s.licenses && s'.tokens == s.tokens
  {
  }

  /** Before anything is set, there is no quota and invites last a week. */
  lemma InitialSettings(cfg: Config)
    ensures After(cfg, []).quota == 0 && After(cfg, []).inviteDays == 7
  {
  }

  /** The characters that are trimmed: the Unicode white space. */
  lemma WhitespaceIs(c: char)
    ensures IsWhitespace(c) <==>
              c in {'\t', '\n', '\U{b}', '\U{c}', '\r', ' ', '\U{85}', '\U{a0}', '\U{1680}', '\U{2000}', '\U{2001}',
                    '\U{2002}', '\U{2003}', '\U{2004}', '\U{2005}', '\U{2006}', '\U{2007}', '\U{2008}', '\U{2009}',
                    '\U{200a}', '\U{2028}', '\U{2029}', '\U{202f}', '\U{205f}', '\U{3000}'}
  {
  }
}
