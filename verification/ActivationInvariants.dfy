/** What every run of the activation server keeps. */
module ActivationInvariants {
  import opened JsValues
  import opened ActivationServer
  import opened Strings

  // ----- runs -----

  datatype Step = Step(now: int, call: Call)

  const START := State(map[], map[], map[], map[], 0, DEFAULT_INVITE_DAYS, [])

  /** Every call of the run was possible when it was made. */
  ghost predicate IsRun(cfg: Config, run: seq<Step>)
    decreases |run|, 0
  {
    run == [] ||
    (var n := |run| - 1;
     IsRun(cfg, run[..n]) && Possible(After(cfg, run[..n]), run[n].now, run[n].call))
  }

  ghost function After(cfg: Config, run: seq<Step>): State
    requires IsRun(cfg, run)
    decreases |run|, 1
  {
    if run == [] then START
    else
      var n := |run| - 1;
      Handle(After(cfg, run[..n]), cfg, run[n].now, run[n].call).0
  }

  // ----- refresh tokens -----

  ghost function TokensOf(s: State, licenseId: string): set<string> {
    set t | t in s.tokens && s.tokens[t].licenseId == licenseId
  }

  ghost function LiveTokens(s: State, licenseId: string): set<string> {
    set t | t in s.tokens && s.tokens[t].licenseId == licenseId && s.tokens[t].revokedAt.None?
  }

  function Refreshes(audit: seq<AuditRow>, licenseId: string): nat {
    if audit == [] then 0
    else
      var row := audit[|audit| - 1];
      Refreshes(audit[..|audit| - 1], licenseId) + (if row.Refreshed? && row.licenseId == licenseId then 1 else 0)
  }

  lemma RefreshesSnoc(audit: seq<AuditRow>, row: AuditRow, licenseId: string)
    ensures Refreshes(audit + [row], licenseId) ==
              Refreshes(audit, licenseId) + (if row.Refreshed? && row.licenseId == licenseId then 1 else 0)
  {
    assert (audit + [row])[..|audit|] == audit;
  }

  /** The licence has one unrevoked token, and one token more than successful refreshes. */
  ghost predicate TokensRotate(s: State, licenseId: string) {
    && |LiveTokens(s, licenseId)| == 1
    && |TokensOf(s, licenseId)| == 1 + Refreshes(s.audit, licenseId)
  }

  ghost predicate TokensMatch(s: State) {
    forall t :: t in s.tokens ==>
      && s.tokens[t].licenseId in s.licenses
      && s.tokens[t].installation == s.licenses[s.tokens[t].licenseId].installation
  }

  ghost predicate NoStrayRefresh(s: State) {
    forall l :: l !in s.licenses ==> Refreshes(s.audit, l) == 0
  }

  ghost predicate TokenInvariant(s: State) {
    && TokensMatch(s)
    && NoStrayRefresh(s)
    && forall l :: l in s.licenses ==> TokensRotate(s, l)
  }

  lemma SameTokens(s: State, s': State, l: string)
    requires s'.tokens == s.tokens && Refreshes(s'.audit, l) == Refreshes(s.audit, l) && TokensRotate(s, l)
    ensures TokensRotate(s', l)
  {
    assert LiveTokens(s', l) == LiveTokens(s, l) && TokensOf(s', l) == TokensOf(s, l);
  }

  lemma TokensOfNewLicense(s: State, s': State, l: string, token: string)
    requires TokensMatch(s) && l !in s.licenses
    requires s'.tokens.Keys == s.tokens.Keys + {token}
    requires s'.tokens[token].licenseId == l && s'.tokens[token].revokedAt.None?
    requires forall t :: t in s.tokens && t != token ==> s'.tokens[t] == s.tokens[t]
    ensures TokensOf(s', l) == {token} && LiveTokens(s', l) == {token}
  {
    assert forall t :: t in s.tokens ==> s.tokens[t].licenseId != l;
    assert token in s'.tokens.Keys;
  }

  lemma NewRotation(s: State, s': State, l: string, token: string)
    requires TokensMatch(s) && NoStrayRefresh(s) && l !in s.licenses
    requires s'.tokens.Keys == s.tokens.Keys + {token}
    requires s'.tokens[token].licenseId == l && s'.tokens[token].revokedAt.None?
    requires forall t :: t in s.tokens && t != token ==> s'.tokens[t] == s.tokens[t]
    requires Refreshes(s'.audit, l) == Refreshes(s.audit, l)
    ensures TokensRotate(s', l)
  {
    hide Refreshes, TokensOf, LiveTokens;
    TokensOfNewLicense(s, s', l, token);
  }

  lemma IssueKeepsTokens(s: State, cfg: Config, now: int, installation: string, licenseId: string,
                         tokenHash: string, source: Source)
    requires TokenInvariant(s) && licenseId !in s.licenses && tokenHash !in s.tokens
    ensures TokenInvariant(Issue(s, cfg, now, installation, licenseId, tokenHash, source))
  {
    hide TokensRotate;
    var s' := Issue(s, cfg, now, installation, licenseId, tokenHash, source);
    forall l ensures Refreshes(s'.audit, l) == Refreshes(s.audit, l) {
      RefreshesSnoc(s.audit, Issued(licenseId, source), l);
    }
    forall l | l in s'.licenses ensures TokensRotate(s', l) {
      if l == licenseId {
        NewRotation(s, s', l, tokenHash);
      } else {
        OtherRotation(s, s', l, licenseId);
      }
    }
  }

  lemma OnlyElement<T>(s: set<T>, x: T)
    requires |s| == 1 && x in s
    ensures s == {x}
  {
    assert |s - {x}| == 0;
  }

  lemma RotationOfTheLicense(s: State, s': State, l: string, old_: string, new_: string)
    requires TokensRotate(s, l) && old_ in LiveTokens(s, l) && new_ !in s.tokens
    requires s'.tokens.Keys == s.tokens.Keys + {new_}
    requires s'.tokens[new_].licenseId == l && s'.tokens[new_].revokedAt.None?
    requires s'.tokens[old_].licenseId == l && s'.tokens[old_].revokedAt.Some?
    requires forall t :: t in s.tokens && t != old_ ==> s'.tokens[t] == s.tokens[t]
    requires Refreshes(s'.audit, l) == Refreshes(s.audit, l) + 1
    ensures TokensRotate(s', l)
  {
    OnlyElement(LiveTokens(s, l), old_);
    forall t | t in LiveTokens(s', l) ensures t == new_ {
      assert t != new_ && t != old_ ==> t in LiveTokens(s, l);
    }
    assert LiveTokens(s', l) == {new_};
    assert TokensOf(s', l) == TokensOf(s, l) + {new_};
  }

  lemma RefreshKeepsTokens(s: State, cfg: Config, now: int, tokenHash: string, licenseId: string,
                           installation: string, newTokenHash: string)
    requires TokenInvariant(s) && newTokenHash !in s.tokens
    ensures TokenInvariant(RefreshLicense(s, cfg, now, tokenHash, licenseId, installation, newTokenHash).0)
  {
    hide TokensRotate;
    var (s', outcome) := RefreshLicense(s, cfg, now, tokenHash, licenseId, installation, newTokenHash);
    if outcome == Done {
      forall l ensures Refreshes(s'.audit, l) == Refreshes(s.audit, l) + (if l == licenseId then 1 else 0) {
        RefreshesSnoc(s.audit, Refreshed(licenseId, tokenHash), l);
      }
      forall l | l in s'.licenses ensures TokensRotate(s', l) {
        if l == licenseId {
          RotationOfTheLicense(s, s', l, tokenHash, newTokenHash);
        } else {
          OtherRotation(s, s', l, licenseId);
        }
      }
    }
  }

  lemma OtherRotation(s: State, s': State, l: string, rotated: string)
    requires TokensRotate(s, l) && l != rotated && Refreshes(s'.audit, l) == Refreshes(s.audit, l)
    requires s.tokens.Keys <= s'.tokens.Keys
    requires forall t :: t in s'.tokens ==>
               if t in s.tokens && s.tokens[t].licenseId != rotated then s'.tokens[t] == s.tokens[t]
               else s'.tokens[t].licenseId == rotated
    ensures TokensRotate(s', l)
  {
    assert TokensOf(s', l) == TokensOf(s, l) && LiveTokens(s', l) == LiveTokens(s, l);
  }

  lemma RedeemKeepsTokens(s: State, cfg: Config, now: int, requestId: string, installation: string, appId: string,
                          licenseId: string, tokenHash: string)
    requires TokenInvariant(s) && licenseId !in s.licenses && tokenHash !in s.tokens
    ensures TokenInvariant(Redeem(s, cfg, now, requestId, installation, appId, licenseId, tokenHash).0)
  {
    hide TokenInvariant;
    var (s', outcome) := Redeem(s, cfg, now, requestId, installation, appId, licenseId, tokenHash);
    if outcome == Done {
      var r := s.requests[requestId];
      var used := if r.inviteId.Some? && r.inviteId.value != "" then UseInvite(s, r.inviteId.value) else s;
      var source := ViaRequest(requestId, r.inviteId);
      SameTablesKeepTokens(s, used);
      IssueKeepsTokens(used, cfg, now, installation, licenseId, tokenHash, source);
      SameTablesKeepTokens(Issue(used, cfg, now, installation, licenseId, tokenHash, source), s');
    }
  }

  lemma RedeemByCodeKeepsTokens(s: State, cfg: Config, now: int, code: string, installation: string, appId: string,
                                licenseId: string, tokenHash: string)
    requires TokenInvariant(s) && licenseId !in s.licenses && tokenHash !in s.tokens
    ensures TokenInvariant(RedeemByCode(s, cfg, now, code, installation, appId, licenseId, tokenHash).0)
  {
    hide TokenInvariant;
    SameTablesKeepTokens(s, UseInvite(s, code));
    IssueKeepsTokens(UseInvite(s, code), cfg, now, installation, licenseId, tokenHash, ViaCode(code));
  }

  lemma HandleKeepsTokens(s: State, cfg: Config, now: int, call: Call)
    requires TokenInvariant(s) && Possible(s, now, call)
    ensures TokenInvariant(Handle(s, cfg, now, call).0)
  {
    hide TokenInvariant;
    match call {
      case CallRedeem(requestId, installation, appId, licenseId, tokenHash) =>
        RedeemKeepsTokens(s, cfg, now, requestId, installation, appId, licenseId, tokenHash);
      case CallRedeemByCode(code, installation, appId, licenseId, tokenHash) =>
        RedeemByCodeKeepsTokens(s, cfg, now, code, installation, appId, licenseId, tokenHash);
      case CallRefresh(tokenHash, licenseId, installation, newTokenHash) =>
        RefreshKeepsTokens(s, cfg, now, tokenHash, licenseId, installation, newTokenHash);
      case _ =>
        SameTablesKeepTokens(s, Handle(s, cfg, now, call).0);
    }
  }

  lemma SameTablesKeepTokens(s: State, s': State)
    requires TokenInvariant(s) && s'.tokens == s.tokens && s'.audit == s.audit
    requires s'.licenses.Keys == s.licenses.Keys
    requires forall l :: l in s.licenses ==> s'.licenses[l].installation == s.licenses[l].installation
    ensures TokenInvariant(s')
  {
    forall l | l in s'.licenses ensures TokensRotate(s', l) {
      SameTokens(s, s', l);
    }
  }

  /** In every reachable state each licence has exactly one unrevoked token and as many tokens
      as issues and refreshes, and tokens name the installation of their licence. */
  lemma {:induction false} TokensAlwaysRotate(cfg: Config, run: seq<Step>)
    requires IsRun(cfg, run)
    ensures TokenInvariant(After(cfg, run))
  {
    if run != [] {
      var n := |run| - 1;
      TokensAlwaysRotate(cfg, run[..n]);
      HandleKeepsTokens(After(cfg, run[..n]), cfg, run[n].now, run[n].call);
    }
  }

  // ----- which refreshes succeed -----

  /** The live token of a licence runs for thirty days from the licence's last refresh. */
  ghost predicate TokenIsCurrent(s: State, t: string) {
    t in s.tokens && s.tokens[t].revokedAt.None? ==>
      && s.tokens[t].licenseId in s.licenses
      && s.tokens[t].expiresAt == s.licenses[s.tokens[t].licenseId].lastRefreshAt + TOKEN_VALID_DAYS * DAY
  }

  ghost predicate TokensAreCurrent(s: State) {
    forall t :: TokenIsCurrent(s, t)
  }

  lemma RefreshKeepsCurrent(s: State, cfg: Config, now: int, tokenHash: string, licenseId: string,
                            installation: string, newTokenHash: string, t: string)
    requires TokenInvariant(s) && newTokenHash !in s.tokens && TokenIsCurrent(s, t)
    ensures TokenIsCurrent(RefreshLicense(s, cfg, now, tokenHash, licenseId, installation, newTokenHash).0, t)
  {
    var (s', outcome) := RefreshLicense(s, cfg, now, tokenHash, licenseId, installation, newTokenHash);
    if outcome == Done && t in s.tokens && s.tokens[t].revokedAt.None? && s.tokens[t].licenseId == licenseId {
      assert TokensRotate(s, licenseId);
      OnlyElement(LiveTokens(s, licenseId), tokenHash);
      assert t in LiveTokens(s, licenseId);
    }
  }

  lemma OthersKeepCurrent(s: State, cfg: Config, now: int, call: Call, t: string)
    requires TokensMatch(s) && TokenIsCurrent(s, t) && Possible(s, now, call) && !call.CallRefresh?
    ensures TokenIsCurrent(Handle(s, cfg, now, call).0, t)
  {
    hide WithinQuota;
  }

  lemma {:induction false} TokensAlwaysCurrent(cfg: Config, run: seq<Step>)
    requires IsRun(cfg, run)
    ensures TokensAreCurrent(After(cfg, run))
  {
    if run != [] {
      var n := |run| - 1;
      var s, now, call := After(cfg, run[..n]), run[n].now, run[n].call;
      TokensAlwaysCurrent(cfg, run[..n]);
      TokensAlwaysRotate(cfg, run[..n]);
      assert TokenInvariant(s);
      forall t ensures TokenIsCurrent(Handle(s, cfg, now, call).0, t) {
        CallKeepsCurrent(s, cfg, now, call, t);
      }
    }
  }

  lemma CallKeepsCurrent(s: State, cfg: Config, now: int, call: Call, t: string)
    requires TokenInvariant(s) && TokenIsCurrent(s, t) && Possible(s, now, call)
    ensures TokenIsCurrent(Handle(s, cfg, now, call).0, t)
  {
    hide TokenIsCurrent, TokensMatch, TokensRotate, NoStrayRefresh;
    if call.CallRefresh? {
      RefreshKeepsCurrent(
        s, cfg, now, call.tokenHash, call.licenseId, call.installation, call.newTokenHash, t);
    } else {
      OthersKeepCurrent(s, cfg, now, call, t);
    }
  }

  /** In every reachable state a refresh succeeds exactly when it presents the one live token of
      an unrevoked licence, from the licence's installation, within thirty days of the last
      refresh. */
  lemma RefreshSucceedsIff(cfg: Config, run: seq<Step>, now: int, call: Call)
    requires IsRun(cfg, run) && call.CallRefresh? && Possible(After(cfg, run), now, call)
    ensures var s, l := After(cfg, run), call.licenseId;
            Handle(s, cfg, now, call).1 == Done <==>
              && l in s.licenses && !s.licenses[l].revoked
              && call.installation == s.licenses[l].installation
              && LiveTokens(s, l) == {call.tokenHash}
              && now < s.licenses[l].lastRefreshAt + TOKEN_VALID_DAYS * DAY
  {
    var s, l, t := After(cfg, run), call.licenseId, call.tokenHash;
    TokensAlwaysRotate(cfg, run);
    TokensAlwaysCurrent(cfg, run);
    hide IsRun, After;
    assert TokenIsCurrent(s, t);
    if l in s.licenses && t in LiveTokens(s, l) {
      assert TokensRotate(s, l);
      OnlyElement(LiveTokens(s, l), t);
    }
    assert LiveTokens(s, l) == {t} ==> t in LiveTokens(s, l);
  }

  // ----- what never comes back -----

  /** Revoked tokens stay revoked, and revoked licences stay exactly as they are. */
  ghost predicate KeepsRevocations(s: State, s': State) {
    && (forall t :: t in s.tokens && s.tokens[t].revokedAt.Some? ==>
          t in s'.tokens && s'.tokens[t] == s.tokens[t])
    && (forall l :: l in s.licenses && s.licenses[l].revoked ==> l in s'.licenses && s'.licenses[l] == s.licenses[l])
  }

  lemma HandleKeepsRevocations(s: State, cfg: Config, now: int, call: Call)
    requires Possible(s, now, call)
    ensures KeepsRevocations(s, Handle(s, cfg, now, call).0)
  {
  }

  lemma {:induction false} RunsKeepRevocations(cfg: Config, run: seq<Step>, m: nat)
    requires IsRun(cfg, run) && m <= |run|
    ensures IsRun(cfg, run[..m]) && KeepsRevocations(After(cfg, run[..m]), After(cfg, run))
  {
    if m == |run| {
      assert run[..m] == run;
    } else {
      var n := |run| - 1;
      assert run[..n][..m] == run[..m];
      RunsKeepRevocations(cfg, run[..n], m);
      HandleKeepsRevocations(After(cfg, run[..n]), cfg, run[n].now, run[n].call);
    }
  }

  /** A refresh token that has been used once never authorises again. */
  lemma UsedTokenIsSpent(cfg: Config, run: seq<Step>, m: nat, now: int, call: Call)
    requires IsRun(cfg, run) && m < |run| && IsRun(cfg, run[..m])
    requires Possible(After(cfg, run[..m]), run[m].now, run[m].call)
    requires run[m].call.CallRefresh? && Handle(After(cfg, run[..m]), cfg, run[m].now, run[m].call).1 == Done
    requires call.CallRefresh? && call.tokenHash == run[m].call.tokenHash && Possible(After(cfg, run), now, call)
    ensures Handle(After(cfg, run), cfg, now, call).1 == Unauthorized
    ensures Handle(After(cfg, run), cfg, now, call).0 == After(cfg, run)
  {
    assert run[..m + 1][..m] == run[..m];
    RunsKeepRevocations(cfg, run, m + 1);
    var t := call.tokenHash;
    assert After(cfg, run[..m + 1]).tokens[t].revokedAt.Some?;
  }

  // ----- times -----

  ghost predicate ClockAscends(run: seq<Step>) {
    forall i, j :: 0 <= i < j < |run| ==> run[i].now <= run[j].now
  }

  ghost predicate LicenseTimes(license: License, cfg: Config, now: int) {
    && license.issuedAt <= license.lastRefreshAt <= now
    && license.exp == license.lastRefreshAt + cfg.licenseValidDays * DAY
    && license.offlineGraceExp == license.exp + cfg.offlineGraceHours * HOUR
  }

  ghost predicate TimesHold(s: State, cfg: Config, now: int) {
    forall l :: l in s.licenses ==> LicenseTimes(s.licenses[l], cfg, now)
  }

  /** What a step does to a licence: nothing, a revocation, a refresh or its issue. */
  ghost predicate LicenseStep(s: State, s': State, cfg: Config, now: int, l: string) {
    if l in s.licenses then
      l in s'.licenses &&
      (var before, after := s.licenses[l], s'.licenses[l];
       || after == before
       || after == before.(revoked := true)
       || (LicenseTimes(after.(issuedAt := now), cfg, now) && after.lastRefreshAt == now
           && after.issuedAt == before.issuedAt))
    else l in s'.licenses ==> LicenseTimes(s'.licenses[l], cfg, now)
  }

  lemma HandleStepsLicense(s: State, cfg: Config, now: int, call: Call, l: string)
    requires Possible(s, now, call)
    ensures LicenseStep(s, Handle(s, cfg, now, call).0, cfg, now, l)
  {
    hide WithinQuota, Trim;
  }

  lemma HandleKeepsTimes(s: State, cfg: Config, before: int, now: int, call: Call)
    requires TimesHold(s, cfg, before) && before <= now && Possible(s, now, call)
    ensures TimesHold(Handle(s, cfg, now, call).0, cfg, now)
    ensures forall l :: l in s.licenses ==>
              && l in Handle(s, cfg, now, call).0.licenses
              && s.licenses[l].exp <= Handle(s, cfg, now, call).0.licenses[l].exp
  {
    hide Handle, Possible;
    var s' := Handle(s, cfg, now, call).0;
    forall l
      ensures l in s'.licenses ==> LicenseTimes(s'.licenses[l], cfg, now)
      ensures l in s.licenses ==> l in s'.licenses && s.licenses[l].exp <= s'.licenses[l].exp
    {
      HandleStepsLicense(s, cfg, now, call, l);
    }
  }

  lemma {:induction false} TimesAlwaysHold(cfg: Config, run: seq<Step>, now: int)
    requires IsRun(cfg, run) && ClockAscends(run) && (run != [] ==> run[|run| - 1].now <= now)
    ensures TimesHold(After(cfg, run), cfg, now)
  {
    if run != [] {
      var n := |run| - 1;
      TimesAlwaysHold(cfg, run[..n], run[n].now);
      HandleKeepsTimes(After(cfg, run[..n]), cfg, run[n].now, run[n].now, run[n].call);
    }
  }

  /** With a clock that does not go back and non-negative periods, a licence's times are in
      order, and no later step moves its expiry back. */
  lemma {:induction false} ExpiryNeverFalls(cfg: Config, run: seq<Step>, m: nat, l: string)
    requires IsRun(cfg, run) && ClockAscends(run) && m <= |run|
    requires cfg.licenseValidDays >= 0 && cfg.offlineGraceHours >= 0
    requires IsRun(cfg, run[..m]) && l in After(cfg, run[..m]).licenses
    ensures l in After(cfg, run).licenses
    ensures var earlier, later := After(cfg, run[..m]).licenses[l], After(cfg, run).licenses[l];
            && earlier.exp <= later.exp
            && later.issuedAt <= later.lastRefreshAt <= later.exp <= later.offlineGraceExp
            && (earlier.revoked ==> later == earlier)
  {
    var now := if run == [] then 0 else run[|run| - 1].now;
    TimesAlwaysHold(cfg, run, now);
    RunsKeepRevocations(cfg, run, m);
    if m == |run| {
      assert run[..m] == run;
    } else {
      var n := |run| - 1;
      assert run[..n][..m] == run[..m];
      ExpiryNeverFalls(cfg, run[..n], m, l);
      TimesAlwaysHold(cfg, run[..n], run[n].now);
      HandleKeepsTimes(After(cfg, run[..n]), cfg, run[n].now, run[n].now, run[n].call);
    }
    assert LicenseTimes(After(cfg, run).licenses[l], cfg, now);
  }

  // ----- requests and invites -----

  /** Which licences to count: those redeemed with a request, with an invite code, with a
      request an invite was made for, or all. */
  datatype Tally = ByRequest(requestId: string) | ByCode(codeId: string) | ByRequestOf(inviteId: string) | Everything

  predicate Counts(tally: Tally, row: AuditRow) {
    row.Issued? &&
    match tally
    case ByRequest(id) => row.source.ViaRequest? && row.source.requestId == id
    case ByCode(id) => row.source == ViaCode(id)
    case ByRequestOf(id) => row.source.ViaRequest? && row.source.inviteId == Some(id)
    case Everything => true
  }

  function Count(audit: seq<AuditRow>, tally: Tally): nat {
    if audit == [] then 0
    else Count(audit[..|audit| - 1], tally) + (if Counts(tally, audit[|audit| - 1]) then 1 else 0)
  }

  lemma CountSnoc(audit: seq<AuditRow>, row: AuditRow, tally: Tally)
    ensures Count(audit + [row], tally) == Count(audit, tally) + (if Counts(tally, row) then 1 else 0)
  {
    assert (audit + [row])[..|audit|] == audit;
  }

  /** A request is redeemed at most once, and not before it is approved. */
  ghost predicate RequestConserves(s: State, id: string) {
    var redeemed := Count(s.audit, ByRequest(id));
    && redeemed <= 1
    && ((id !in s.requests || s.requests[id].status == Pending || s.requests[id].status == Approved) ==> redeemed == 0)
    && ((id in s.requests && s.requests[id].status == Redeemed) ==> redeemed == 1)
  }

  function Min(a: int, b: int): int { if a < b then a else b }

  /** The licences traced to an invite. */
  function Traced(audit: seq<AuditRow>, id: string): nat {
    Count(audit, ByCode(id)) + Count(audit, ByRequestOf(id))
  }

  /** The use count of an invite is the number of licences redeemed with its code or its
      request, but never more than its limit; the code is never redeemed beyond the count. */
  ghost predicate InviteConserves(s: State, id: string) {
    if id in s.invites then
      && 1 <= s.invites[id].maxUses
      && s.invites[id].usedCount == Min(s.invites[id].maxUses, Traced(s.audit, id))
      && Count(s.audit, ByCode(id)) <= s.invites[id].usedCount
    else
      Traced(s.audit, id) == 0
  }

  /** Requests name existing invites. */
  ghost predicate InvitesExist(s: State) {
    && "" !in s.invites
    && forall r :: r in s.requests && s.requests[r].inviteId.Some? ==> s.requests[r].inviteId.value in s.invites
  }

  ghost predicate Conserves(s: State) {
    && InvitesExist(s)
    && |s.licenses| == Count(s.audit, Everything)
    && (forall id :: RequestConserves(s, id))
    && (forall id :: InviteConserves(s, id))
  }

  lemma IssueKeepsRequest(s: State, s': State, row: AuditRow, id: string)
    requires row.Issued? && s'.audit == s.audit + [row] && RequestConserves(s, id)
    requires if row.source.ViaRequest? && row.source.requestId == id then
               && id in s.requests && s.requests[id].status == Approved
               && id in s'.requests && s'.requests[id].status == Redeemed
             else
               && (id in s'.requests <==> id in s.requests)
               && (id in s.requests ==> s'.requests[id].status == s.requests[id].status)
    ensures RequestConserves(s', id)
  {
    CountSnoc(s.audit, row, ByRequest(id));
  }

  function TracedTo(source: Source): Option<string> {
    if source.ViaCode? then Some(source.codeId) else source.inviteId
  }

  lemma IssueKeepsInvite(s: State, s': State, row: AuditRow, id: string)
    requires row.Issued? && s'.audit == s.audit + [row] && InviteConserves(s, id)
    requires if TracedTo(row.source) == Some(id)
             then id in s.invites && s'.invites == UseInvite(s, id).invites
             else (id in s.invites <==> id in s'.invites) && (id in s.invites ==> s'.invites[id] == s.invites[id])
    requires row.source == ViaCode(id) ==> s.invites[id].usedCount < s.invites[id].maxUses
    ensures InviteConserves(s', id)
  {
    CountSnoc(s.audit, row, ByCode(id));
    CountSnoc(s.audit, row, ByRequestOf(id));
  }

  /** The licences and the audit rows grow together. */
  lemma OneMoreLicense(s: State, s': State, row: AuditRow)
    requires row.Issued? && row.licenseId !in s.licenses && s'.audit == s.audit + [row]
    requires s'.licenses.Keys == s.licenses.Keys + {row.licenseId}
    requires |s.licenses| == Count(s.audit, Everything)
    ensures |s'.licenses| == Count(s'.audit, Everything)
  {
    CountSnoc(s.audit, row, Everything);
    assert |s'.licenses.Keys| == |s.licenses.Keys| + 1;
  }

  /** What a successful redemption of a request does to the tables. */
  ghost predicate Redeems(s: State, s': State, requestId: string, row: AuditRow) {
    && requestId in s.requests && s.requests[requestId].status == Approved
    && row.Issued? && row.source == ViaRequest(requestId, s.requests[requestId].inviteId)
    && s'.audit == s.audit + [row]
    && s'.requests == s.requests[requestId := s.requests[requestId].(status := Redeemed)]
    && s'.invites ==
         (if s.requests[requestId].inviteId.Some? && s.requests[requestId].inviteId.value != ""
          then UseInvite(s, s.requests[requestId].inviteId.value).invites else s.invites)
    && s'.licenses.Keys == s.licenses.Keys + {row.licenseId}
  }

  lemma RedeemRedeems(s: State, cfg: Config, now: int, requestId: string, installation: string, appId: string,
                      licenseId: string, tokenHash: string)
    ensures var (s', outcome) := Redeem(s, cfg, now, requestId, installation, appId, licenseId, tokenHash);
            if outcome == Done
            then Redeems(s, s', requestId, Issued(licenseId, ViaRequest(requestId, s.requests[requestId].inviteId)))
            else s' == s
  {
  }

  lemma RedeemKeepsInvite(s: State, s': State, requestId: string, row: AuditRow, id: string)
    requires Redeems(s, s', requestId, row) && InvitesExist(s) && InviteConserves(s, id)
    ensures InviteConserves(s', id)
  {
    hide InviteConserves;
    IssueKeepsInvite(s, s', row, id);
  }

  lemma RedeemKeepsRequest(s: State, s': State, requestId: string, row: AuditRow, id: string)
    requires Redeems(s, s', requestId, row) && RequestConserves(s, id)
    ensures RequestConserves(s', id)
  {
    hide RequestConserves, UseInvite;
    IssueKeepsRequest(s, s', row, id);
  }

  lemma RedeemKeepsInvitesExisting(s: State, s': State, requestId: string, row: AuditRow)
    requires Redeems(s, s', requestId, row) && InvitesExist(s)
    ensures InvitesExist(s')
  {
  }

  lemma RedeemKeepsConservation(s: State, cfg: Config, now: int, requestId: string, installation: string,
                                appId: string, licenseId: string, tokenHash: string)
    requires Conserves(s) && licenseId !in s.licenses
    ensures Conserves(Redeem(s, cfg, now, requestId, installation, appId, licenseId, tokenHash).0)
  {
    var (s', outcome) := Redeem(s, cfg, now, requestId, installation, appId, licenseId, tokenHash);
    RedeemRedeems(s, cfg, now, requestId, installation, appId, licenseId, tokenHash);
    if outcome == Done {
      hide Redeem, Count, InvitesExist, RequestConserves, InviteConserves, UseInvite;
      var row := Issued(licenseId, ViaRequest(requestId, s.requests[requestId].inviteId));
      OneMoreLicense(s, s', row);
      RedeemKeepsInvitesExisting(s, s', requestId, row);
      forall id ensures RequestConserves(s', id) {
        RedeemKeepsRequest(s, s', requestId, row, id);
      }
      forall id ensures InviteConserves(s', id) {
        RedeemKeepsInvite(s, s', requestId, row, id);
      }
    }
  }

  /** What a successful redemption of a code does to the tables. */
  ghost predicate RedeemsCode(s: State, s': State, code: string, row: AuditRow) {
    && code in s.invites && s.invites[code].usedCount < s.invites[code].maxUses
    && row.Issued? && row.source == ViaCode(code)
    && s'.audit == s.audit + [row]
    && s'.requests == s.requests
    && s'.invites == UseInvite(s, code).invites
    && s'.licenses.Keys == s.licenses.Keys + {row.licenseId}
  }

  lemma RedeemByCodeRedeems(s: State, cfg: Config, now: int, code: string, installation: string, appId: string,
                            licenseId: string, tokenHash: string)
    ensures var (s', outcome) := RedeemByCode(s, cfg, now, code, installation, appId, licenseId, tokenHash);
            if outcome == Done then RedeemsCode(s, s', code, Issued(licenseId, ViaCode(code))) else s' == s
  {
  }

  lemma RedeemsCodeKeeps(s: State, s': State, code: string, row: AuditRow, id: string)
    requires RedeemsCode(s, s', code, row) && RequestConserves(s, id) && InviteConserves(s, id)
    ensures RequestConserves(s', id) && InviteConserves(s', id)
  {
    hide RequestConserves, InviteConserves;
    IssueKeepsRequest(s, s', row, id);
    IssueKeepsInvite(s, s', row, id);
  }

  lemma RedeemsCodeKeepsInvitesExisting(s: State, s': State, code: string, row: AuditRow)
    requires RedeemsCode(s, s', code, row) && InvitesExist(s)
    ensures InvitesExist(s')
  {
  }

  lemma RedeemByCodeKeepsConservation(s: State, cfg: Config, now: int, code: string, installation: string,
                                      appId: string, licenseId: string, tokenHash: string)
    requires Conserves(s) && licenseId !in s.licenses
    ensures Conserves(RedeemByCode(s, cfg, now, code, installation, appId, licenseId, tokenHash).0)
  {
    var (s', outcome) := RedeemByCode(s, cfg, now, code, installation, appId, licenseId, tokenHash);
    RedeemByCodeRedeems(s, cfg, now, code, installation, appId, licenseId, tokenHash);
    if outcome == Done {
      hide RedeemByCode, Count, InvitesExist, RequestConserves, InviteConserves, UseInvite;
      var row := Issued(licenseId, ViaCode(code));
      OneMoreLicense(s, s', row);
      RedeemsCodeKeepsInvitesExisting(s, s', code, row);
      forall id ensures RequestConserves(s', id) && InviteConserves(s', id) {
        RedeemsCodeKeeps(s, s', code, row, id);
      }
    }
  }

  /** What a step that issues nothing may do. */
  ghost predicate QuietRequests(s: State, s': State) {
    && s.requests.Keys <= s'.requests.Keys
    && forall id :: id in s'.requests ==>
         if id in s.requests then
           || s'.requests[id].status == s.requests[id].status
           || s'.requests[id].status == Rejected
           || (s.requests[id].status == Pending && s'.requests[id].status == Approved)
         else s'.requests[id].status == Pending || s'.requests[id].status == Approved
  }

  ghost predicate QuietInvites(s: State, s': State) {
    && s.invites.Keys <= s'.invites.Keys
    && forall id :: id in s'.invites ==>
         if id in s.invites then s'.invites[id] == s.invites[id]
         else s'.invites[id].usedCount == 0 && s'.invites[id].maxUses >= 1
  }

  ghost predicate QuietAudit(s: State, s': State) {
    && s'.licenses.Keys == s.licenses.Keys
    && (s'.audit == s.audit || (exists row: AuditRow :: row.Refreshed? && s'.audit == s.audit + [row]))
  }

  lemma QuietAuditCounts(s: State, s': State, tally: Tally)
    requires QuietAudit(s, s')
    ensures Count(s'.audit, tally) == Count(s.audit, tally)
  {
    if s'.audit != s.audit {
      var row: AuditRow :| row.Refreshed? && s'.audit == s.audit + [row];
      CountSnoc(s.audit, row, tally);
    }
  }

  lemma QuietKeepsRequest(s: State, s': State, id: string)
    requires RequestConserves(s, id) && QuietRequests(s, s') && QuietAudit(s, s')
    ensures RequestConserves(s', id)
  {
    QuietAuditCounts(s, s', ByRequest(id));
    hide Count, QuietAudit;
  }

  lemma QuietKeepsInvite(s: State, s': State, id: string)
    requires InviteConserves(s, id) && QuietInvites(s, s') && QuietAudit(s, s')
    ensures InviteConserves(s', id)
  {
    QuietAuditCounts(s, s', ByCode(id));
    QuietAuditCounts(s, s', ByRequestOf(id));
    hide Count, QuietAudit;
  }

  lemma QuietStepKeepsConservation(s: State, s': State)
    requires Conserves(s) && InvitesExist(s')
    requires QuietRequests(s, s') && QuietInvites(s, s') && QuietAudit(s, s')
    ensures Conserves(s')
  {
    QuietAuditCounts(s, s', Everything);
    assert |s'.licenses.Keys| == |s.licenses.Keys|;
    hide RequestConserves, InviteConserves, QuietRequests, QuietInvites, QuietAudit, InvitesExist, Count;
    forall id ensures RequestConserves(s', id) {
      QuietKeepsRequest(s, s', id);
    }
    forall id ensures InviteConserves(s', id) {
      QuietKeepsInvite(s, s', id);
    }
  }

  ghost predicate Quiet(s: State, s': State) {
    && QuietRequests(s, s') && QuietInvites(s, s') && QuietAudit(s, s')
    && (InvitesExist(s) ==> InvitesExist(s'))
  }

  lemma CreateRequestIsQuiet(s: State, cfg: Config, now: int, installation: string, appId: string, newId: string,
                             picked: Option<string>)
    requires newId !in s.requests && IsNewestOpen(s, installation, now, picked)
    ensures Quiet(s, CreateRequest(s, cfg, now, installation, appId, newId, picked).0)
  {
    hide WithinQuota;
  }

  lemma ApproveIsQuiet(s: State, now: int, requestId: string, newInvite: string)
    requires newInvite !in s.invites && newInvite != ""
    ensures Quiet(s, Approve(s, now, requestId, newInvite).0)
  {
  }

  lemma RefreshIsQuiet(s: State, cfg: Config, now: int, tokenHash: string, licenseId: string, installation: string,
                       newTokenHash: string)
    ensures Quiet(s, RefreshLicense(s, cfg, now, tokenHash, licenseId, installation, newTokenHash).0)
  {
    assert Refreshed(licenseId, tokenHash).Refreshed?;
  }

  lemma RejectIsQuiet(s: State, requestId: string)
    ensures Quiet(s, Reject(s, requestId).0)
  {
  }

  lemma QuietCalls(s: State, cfg: Config, now: int, call: Call)
    requires Possible(s, now, call) && !call.CallRedeem? && !call.CallRedeemByCode?
    ensures Quiet(s, Handle(s, cfg, now, call).0)
  {
    match call {
      case CallCreateRequest(installation, appId, newId, picked) =>
        hide Quiet;
        CreateRequestIsQuiet(s, cfg, now, installation, appId, newId, picked);
      case CallApprove(requestId, newInvite) =>
        hide Quiet;
        ApproveIsQuiet(s, now, requestId, newInvite);
      case CallReject(requestId) =>
        hide Quiet;
        RejectIsQuiet(s, requestId);
      case CallRefresh(tokenHash, licenseId, installation, newTokenHash) =>
        hide Quiet;
        RefreshIsQuiet(s, cfg, now, tokenHash, licenseId, installation, newTokenHash);
      case CallRevoke(_) =>
      case CallCreateInvite(_, _, _, _) =>
      case CallSettings(_, _) =>
    }
  }

  lemma HandleKeepsConservation(s: State, cfg: Config, now: int, call: Call)
    requires Conserves(s) && Possible(s, now, call)
    ensures Conserves(Handle(s, cfg, now, call).0)
  {
    hide RequestConserves, InviteConserves, QuietRequests, QuietInvites, QuietAudit;
    match call {
      case CallRedeem(requestId, installation, appId, licenseId, tokenHash) =>
        RedeemKeepsConservation(s, cfg, now, requestId, installation, appId, licenseId, tokenHash);
      case CallRedeemByCode(code, installation, appId, licenseId, tokenHash) =>
        RedeemByCodeKeepsConservation(s, cfg, now, code, installation, appId, licenseId, tokenHash);
      case _ =>
        QuietCalls(s, cfg, now, call);
        QuietStepKeepsConservation(s, Handle(s, cfg, now, call).0);
    }
  }

  /** In every reachable state a request has been redeemed at most once, an invite is used as
      often as licences are traced to it, up to its limit, and there is a licence for every
      issue. */
  lemma {:induction false} AlwaysConserves(cfg: Config, run: seq<Step>)
    requires IsRun(cfg, run)
    ensures Conserves(After(cfg, run))
  {
    if run != [] {
      var n := |run| - 1;
      AlwaysConserves(cfg, run[..n]);
      HandleKeepsConservation(After(cfg, run[..n]), cfg, run[n].now, run[n].call);
    }
  }

  /** Decisions are final: nothing leads back to pending, nothing but approval leads to a
      redemption, and a rejected request stays rejected. */
  lemma StatusOnlyAdvances(s: State, cfg: Config, now: int, call: Call, id: string)
    requires Possible(s, now, call) && id in s.requests
    ensures var s' := Handle(s, cfg, now, call).0;
            && id in s'.requests
            && (match s.requests[id].status
                case Pending => s'.requests[id].status != Redeemed
                case Approved => s'.requests[id].status != Pending
                case Redeemed => s'.requests[id].status == Redeemed || s'.requests[id].status == Rejected
                case Rejected => s'.requests[id].status == Rejected)
  {
  }

  /** Redeeming a request goes beyond the limit of its invite exactly when the invite's uses
      were exhausted before: the code and the request it was made for are separate tickets. */
  lemma RedeemOverissuesIff(cfg: Config, run: seq<Step>, now: int, call: Call)
    requires IsRun(cfg, run) && call.CallRedeem?
    requires Possible(After(cfg, run), now, call) && Handle(After(cfg, run), cfg, now, call).1 == Done
    requires After(cfg, run).requests[call.requestId].inviteId.Some?
    ensures var s, id := After(cfg, run), After(cfg, run).requests[call.requestId].inviteId.value;
            && id in s.invites
            && (Traced(Handle(s, cfg, now, call).0.audit, id) <= s.invites[id].maxUses <==>
                  s.invites[id].usedCount < s.invites[id].maxUses)
  {
    AlwaysConserves(cfg, run);
    var s := After(cfg, run);
    var r := s.requests[call.requestId];
    var id := r.inviteId.value;
    var row := Issued(call.licenseId, ViaRequest(call.requestId, r.inviteId));
    CountSnoc(s.audit, row, ByCode(id));
    CountSnoc(s.audit, row, ByRequestOf(id));
    assert InviteConserves(s, id);
  }

  /** Redeeming a code never does. */
  lemma CodeStaysWithinLimit(cfg: Config, run: seq<Step>, now: int, call: Call)
    requires IsRun(cfg, run) && call.CallRedeemByCode?
    requires Possible(After(cfg, run), now, call) && Handle(After(cfg, run), cfg, now, call).1 == Done
    ensures var s := After(cfg, run);
            && call.code in s.invites
            && Traced(Handle(s, cfg, now, call).0.audit, call.code) <= s.invites[call.code].maxUses
  {
    AlwaysConserves(cfg, run);
    var s, row := After(cfg, run), Issued(call.licenseId, ViaCode(call.code));
    CountSnoc(s.audit, row, ByCode(call.code));
    CountSnoc(s.audit, row, ByRequestOf(call.code));
    assert InviteConserves(s, call.code);
  }

  /** The call redeems a request whose invite `id` is used up. */
  ghost predicate Overissues(s: State, cfg: Config, now: int, call: Call, id: string)
    requires Possible(s, now, call)
  {
    && call.CallRedeem? && Handle(s, cfg, now, call).1 == Done
    && call.requestId in s.requests && s.requests[call.requestId].inviteId == Some(id)
    && id in s.invites && s.invites[id].usedCount >= s.invites[id].maxUses
  }

  ghost predicate IsOverissued(s: State, id: string)
    requires id in s.invites
  {
    Traced(s.audit, id) > s.invites[id].maxUses
  }

  /** What one step does to the balance of an invite: only such a redemption takes it beyond the
      limit, and nothing brings it back. */
  ghost predicate BalanceStep(s: State, s': State, overissues: bool, id: string) {
    && (id in s.invites ==> id in s'.invites && (IsOverissued(s', id) <==> IsOverissued(s, id) || overissues))
    && (id !in s.invites && id in s'.invites ==> !IsOverissued(s', id))
  }

  lemma QuietBalance(s: State, s': State, id: string)
    requires InviteConserves(s, id) && QuietInvites(s, s') && QuietAudit(s, s')
    ensures BalanceStep(s, s', false, id)
  {
    QuietAuditCounts(s, s', ByCode(id));
    QuietAuditCounts(s, s', ByRequestOf(id));
    hide Count, QuietAudit;
  }

  lemma SameBalance(s: State, id: string)
    ensures BalanceStep(s, s, false, id)
  {
  }

  lemma RedeemBalance(s: State, s': State, requestId: string, row: AuditRow, id: string)
    requires Redeems(s, s', requestId, row) && InvitesExist(s) && InviteConserves(s, id)
    ensures var used := s.requests[requestId].inviteId == Some(id)
                        && id in s.invites && s.invites[id].usedCount >= s.invites[id].maxUses;
            BalanceStep(s, s', used, id)
  {
    CountSnoc(s.audit, row, ByCode(id));
    CountSnoc(s.audit, row, ByRequestOf(id));
    hide Count;
  }

  lemma CodeBalance(s: State, s': State, code: string, row: AuditRow, id: string)
    requires RedeemsCode(s, s', code, row) && InviteConserves(s, id)
    ensures BalanceStep(s, s', false, id)
  {
    CountSnoc(s.audit, row, ByCode(id));
    CountSnoc(s.audit, row, ByRequestOf(id));
    hide Count;
  }

  lemma HandleBalance(s: State, cfg: Config, now: int, call: Call, id: string)
    requires Conserves(s) && Possible(s, now, call)
    ensures BalanceStep(s, Handle(s, cfg, now, call).0, Overissues(s, cfg, now, call, id), id)
  {
    assert InviteConserves(s, id);
    hide InviteConserves, RequestConserves, BalanceStep, QuietInvites, QuietAudit, QuietRequests, Redeems, RedeemsCode;
    match call {
      case CallRedeem(requestId, installation, appId, licenseId, tokenHash) =>
        RedeemRedeems(s, cfg, now, requestId, installation, appId, licenseId, tokenHash);
        var (s', outcome) := Redeem(s, cfg, now, requestId, installation, appId, licenseId, tokenHash);
        if outcome == Done {
          RedeemBalance(s, s', requestId, Issued(licenseId, ViaRequest(requestId, s.requests[requestId].inviteId)), id);
        } else {
          SameBalance(s, id);
        }
      case CallRedeemByCode(code, installation, appId, licenseId, tokenHash) =>
        RedeemByCodeRedeems(s, cfg, now, code, installation, appId, licenseId, tokenHash);
        var (s', outcome) := RedeemByCode(s, cfg, now, code, installation, appId, licenseId, tokenHash);
        if outcome == Done {
          CodeBalance(s, s', code, Issued(licenseId, ViaCode(code)), id);
        } else {
          SameBalance(s, id);
        }
      case _ =>
        QuietCalls(s, cfg, now, call);
        QuietBalance(s, Handle(s, cfg, now, call).0, id);
    }
  }

  /** Step `m` of the run redeems a request whose invite `id` is used up. */
  ghost predicate OverissuesAt(cfg: Config, run: seq<Step>, m: nat, id: string) {
    && m < |run| && IsRun(cfg, run[..m]) && Possible(After(cfg, run[..m]), run[m].now, run[m].call)
    && Overissues(After(cfg, run[..m]), cfg, run[m].now, run[m].call, id)
  }

  lemma OverissuesAtPrefix(cfg: Config, run: seq<Step>, m: nat, id: string)
    requires run != [] && IsRun(cfg, run)
    ensures var n := |run| - 1;
            OverissuesAt(cfg, run, m, id) <==>
              OverissuesAt(cfg, run[..n], m, id)
              || (m == n && Overissues(After(cfg, run[..n]), cfg, run[n].now, run[n].call, id))
  {
    hide Overissues, Possible, After;
    var n := |run| - 1;
    if m < n {
      assert run[..n][..m] == run[..m] && run[..n][m] == run[m];
    }
  }

  /** Over a whole run, more licences are traced to an invite than it allows exactly when some
      step redeemed a request although the invite was used up. */
  lemma {:induction false} OverissuedIff(cfg: Config, run: seq<Step>, id: string)
    requires IsRun(cfg, run)
    ensures (id in After(cfg, run).invites && IsOverissued(After(cfg, run), id)) <==>
              exists m: nat :: OverissuesAt(cfg, run, m, id)
  {
    hide Overissues, Possible, OverissuesAt, IsOverissued, Handle, Conserves;
    if run == [] {
      NothingOverissued(cfg, id);
    } else {
      var n := |run| - 1;
      var s := After(cfg, run[..n]);
      OverissuedIff(cfg, run[..n], id);
      AlwaysConserves(cfg, run[..n]);
      HandleBalance(s, cfg, run[n].now, run[n].call, id);
      forall m: nat
        ensures OverissuesAt(cfg, run, m, id) <==>
                  OverissuesAt(cfg, run[..n], m, id)
                  || (m == n && Overissues(s, cfg, run[n].now, run[n].call, id))
      {
        OverissuesAtPrefix(cfg, run, m, id);
      }
      if Overissues(s, cfg, run[n].now, run[n].call, id) {
        OverissueNeedsInvite(s, cfg, run[n].now, run[n].call, id);
        assert OverissuesAt(cfg, run, n, id);
      }
      if m: nat :| OverissuesAt(cfg, run[..n], m, id) {
        assert OverissuesAt(cfg, run, m, id);
      }
    }
  }

  lemma OverissueNeedsInvite(s: State, cfg: Config, now: int, call: Call, id: string)
    requires Possible(s, now, call) && Overissues(s, cfg, now, call, id)
    ensures id in s.invites
  {
  }

  lemma NothingOverissued(cfg: Config, id: string)
    ensures id !in After(cfg, []).invites && forall m: nat :: !OverissuesAt(cfg, [], m, id)
  {
  }

  lemma RunSnoc(cfg: Config, run: seq<Step>, step: Step)
    requires IsRun(cfg, run) && Possible(After(cfg, run), step.now, step.call)
    ensures IsRun(cfg, run + [step])
    ensures After(cfg, run + [step]) == Handle(After(cfg, run), cfg, step.now, step.call).0
  {
    assert (run + [step])[..|run|] == run;
  }

  const EXAMPLE_CONFIG := Config({"app"}, 7, 72)

  const ASK := Step(0, CallCreateRequest("device", "app", "request", None))
  const APPROVE := Step(1, CallApprove("request", "invite"))
  const REDEEM_CODE := Step(2, CallRedeemByCode("invite", "device", "app", "licence-1", "token-1"))
  const REDEEM_REQUEST := Step(3, CallRedeem("request", "device", "app", "licence-2", "token-2"))

  const ASKED := START.(requests := map["request" := Request("device", Pending, None, 0, 24 * HOUR)])

  const APPROVED := ASKED.(
    requests := map["request" := Request("device", Approved, Some("invite"), 0, 24 * HOUR)],
    invites := map["invite" := Invite("device", 1, 0, Some(1 + 7 * DAY))])

  lemma ExampleApproval()
    ensures Possible(START, ASK.now, ASK.call) && Handle(START, EXAMPLE_CONFIG, ASK.now, ASK.call).0 == ASKED
    ensures Possible(ASKED, APPROVE.now, APPROVE.call)
    ensures Handle(ASKED, EXAMPLE_CONFIG, APPROVE.now, APPROVE.call).0 == APPROVED
  {
  }

  /** After the code has been redeemed the request still is approved. */
  lemma ExampleCode()
    ensures Possible(APPROVED, REDEEM_CODE.now, REDEEM_CODE.call)
    ensures var s := Handle(APPROVED, EXAMPLE_CONFIG, REDEEM_CODE.now, REDEEM_CODE.call).0;
            && s.requests == APPROVED.requests
            && s.invites == map["invite" := Invite("device", 1, 1, Some(1 + 7 * DAY))]
            && s.licenses.Keys == {"licence-1"} && s.tokens.Keys == {"token-1"}
            && s.audit == [] + [Issued("licence-1", ViaCode("invite"))]
  {
  }

  lemma ExampleRequest(s: State)
    requires s.requests == APPROVED.requests
    requires s.invites == map["invite" := Invite("device", 1, 1, Some(1 + 7 * DAY))]
    requires s.licenses.Keys == {"licence-1"} && s.tokens.Keys == {"token-1"}
    ensures Possible(s, REDEEM_REQUEST.now, REDEEM_REQUEST.call)
    ensures var s' := Handle(s, EXAMPLE_CONFIG, REDEEM_REQUEST.now, REDEEM_REQUEST.call).0;
            && s'.invites == s.invites
            && s'.audit == s.audit + [Issued("licence-2", ViaRequest("request", Some("invite")))]
  {
    assert "licence-2" !in s.licenses.Keys && "token-2" !in s.tokens.Keys;
  }

  /** A device asks, an administrator approves with a single-use invite, and the device
      redeems first the code and then the request. */
  const EXAMPLE_RUN := [] + [ASK] + [APPROVE] + [REDEEM_CODE] + [REDEEM_REQUEST]

  /** One manual approval can thus yield two licences. */
  lemma OneApprovalCanYieldTwoLicences()
    ensures IsRun(EXAMPLE_CONFIG, EXAMPLE_RUN)
    ensures var s := After(EXAMPLE_CONFIG, EXAMPLE_RUN);
            "invite" in s.invites && s.invites["invite"].maxUses == 1 && Traced(s.audit, "invite") == 2
  {
    var cfg := EXAMPLE_CONFIG;
    assert IsRun(cfg, []) && After(cfg, []) == START;
    hide Handle, Possible, After, IsRun, Traced;
    ExampleApproval();
    RunSnoc(cfg, [], ASK);
    RunSnoc(cfg, [] + [ASK], APPROVE);
    ExampleCode();
    RunSnoc(cfg, [] + [ASK] + [APPROVE], REDEEM_CODE);
    var s := After(cfg, [] + [ASK] + [APPROVE] + [REDEEM_CODE]);
    ExampleRequest(s);
    RunSnoc(cfg, [] + [ASK] + [APPROVE] + [REDEEM_CODE], REDEEM_REQUEST);
    ExampleCount(s.audit, After(cfg, EXAMPLE_RUN).audit);
  }

  lemma ExampleCount(before: seq<AuditRow>, after: seq<AuditRow>)
    requires before == [] + [Issued("licence-1", ViaCode("invite"))]
    requires after == before + [Issued("licence-2", ViaRequest("request", Some("invite")))]
    ensures Traced(after, "invite") == 2
  {
    CountSnoc([], Issued("licence-1", ViaCode("invite")), ByCode("invite"));
    CountSnoc([], Issued("licence-1", ViaCode("invite")), ByRequestOf("invite"));
    CountSnoc(before, Issued("licence-2", ViaRequest("request", Some("invite"))), ByCode("invite"));
    CountSnoc(before, Issued("licence-2", ViaRequest("request", Some("invite"))), ByRequestOf("invite"));
  }

  // ----- auto-approval -----

  lemma SubsetIsSmaller<T>(a: set<T>, b: set<T>)
    requires a <= b
    ensures |a| <= |b|
    decreases b
  {
    if a != {} {
      var x :| x in a;
      SubsetIsSmaller(a - {x}, b - {x});
    }
  }

  /** A created request can add its own installation to the approved ones, and no other. */
  lemma OneMoreInstallation(s: State, cfg: Config, now: int, call: Call)
    requires Possible(s, now, call) && call.CallCreateRequest?
    ensures var s' := Handle(s, cfg, now, call).0;
            && ApprovedInstallations(s') <= ApprovedInstallations(s) + {call.installation}
            && s'.quota == s.quota
  {
    hide WithinQuota;
  }

  /** The step approves request `id` on its own, be it new or one that was pending. */
  ghost predicate AutoApproves(s: State, s': State, id: string) {
    && id in s'.requests && s'.requests[id].status == Approved
    && (id in s.requests ==> s.requests[id].status != Approved)
  }

  lemma AutoApprovalNeedsQuota(s: State, cfg: Config, now: int, call: Call, id: string)
    requires Possible(s, now, call) && call.CallCreateRequest?
    requires AutoApproves(s, Handle(s, cfg, now, call).0, id)
    ensures WithinQuota(s)
  {
    hide WithinQuota;
  }

  /** An auto-approving step, for whatever request, leaves at most as many approved installations
      as the quota allows; a step that approves nothing leaves them as they are. */
  lemma AutoApprovalRespectsQuota(s: State, cfg: Config, now: int, call: Call)
    requires Possible(s, now, call) && call.CallCreateRequest?
    ensures var s' := Handle(s, cfg, now, call).0;
            && s'.quota == s.quota
            && (if exists id :: AutoApproves(s, s', id) then |ApprovedInstallations(s')| <= s.quota
                else ApprovedInstallations(s') == ApprovedInstallations(s))
  {
    OneMoreInstallation(s, cfg, now, call);
    var s' := Handle(s, cfg, now, call).0;
    if id :| AutoApproves(s, s', id) {
      AutoApprovalNeedsQuota(s, cfg, now, call, id);
      hide Handle, ApprovedInstallations;
      var a, b := ApprovedInstallations(s'), ApprovedInstallations(s) + {call.installation};
      SubsetIsSmaller(a, b);
      assert |b| <= |ApprovedInstallations(s)| + 1;
    } else {
      NothingApproved(s, cfg, now, call);
    }
  }

  lemma NothingApproved(s: State, cfg: Config, now: int, call: Call)
    requires Possible(s, now, call) && call.CallCreateRequest?
    requires forall id :: !AutoApproves(s, Handle(s, cfg, now, call).0, id)
    ensures ApprovedInstallations(Handle(s, cfg, now, call).0) == ApprovedInstallations(s)
  {
    hide WithinQuota, ApprovedInstallations;
    var s' := Handle(s, cfg, now, call).0;
    forall id | id in s'.requests && (id in s.requests ==> s'.requests[id] != s.requests[id])
      ensures s'.requests[id].status == Pending
    {
      assert !AutoApproves(s, s', id);
    }
    SameApproved(s, s');
  }

  lemma SameApproved(s: State, s': State)
    requires forall id :: id in s.requests ==> id in s'.requests && s'.requests[id] == s.requests[id]
    requires forall id :: id in s'.requests && id !in s.requests ==> !CountsAsApproved(s'.requests[id])
    ensures ApprovedInstallations(s') == ApprovedInstallations(s)
  {
    forall x | x in ApprovedInstallations(s) ensures x in ApprovedInstallations(s') {
      var id :| id in s.requests && CountsAsApproved(s.requests[id]) && s.requests[id].installation == x;
      assert id in s'.requests && CountsAsApproved(s'.requests[id]);
    }
  }

  ghost predicate NoAdminApprovals(run: seq<Step>) {
    forall i :: 0 <= i < |run| ==> !run[i].call.CallApprove?
  }

  /** The quota an administrator last set. */
  function QuotaOf(run: seq<Step>): int {
    if run == [] then 0
    else if run[|run| - 1].call.CallSettings? then Clamp(run[|run| - 1].call.quota.GetOr(0), 0, 1_000_000)
    else QuotaOf(run[..|run| - 1])
  }

  ghost predicate QuotaNeverLowered(run: seq<Step>) {
    forall i :: 0 <= i < |run| && run[i].call.CallSettings? ==> QuotaOf(run[..i]) <= QuotaOf(run[..i + 1])
  }

  lemma OnlyAdministratorsSetQuota(s: State, cfg: Config, now: int, call: Call)
    requires Possible(s, now, call)
    ensures Handle(s, cfg, now, call).0.quota ==
              if call.CallSettings? then Clamp(call.quota.GetOr(0), 0, 1_000_000) else s.quota
  {
    hide WithinQuota;
  }

  lemma OtherStepsApproveNoOne(s: State, cfg: Config, now: int, call: Call)
    requires Possible(s, now, call) && !call.CallApprove? && !call.CallCreateRequest?
    ensures |ApprovedInstallations(Handle(s, cfg, now, call).0)| <= |ApprovedInstallations(s)|
  {
    var s' := Handle(s, cfg, now, call).0;
    assert ApprovedInstallations(s') <= ApprovedInstallations(s);
    SubsetIsSmaller(ApprovedInstallations(s'), ApprovedInstallations(s));
  }

  /** Without manual approvals, and as long as the quota is not lowered, no reachable state has
      more approved installations than the quota in force. */
  lemma {:induction false} QuotaIsAnInvariant(cfg: Config, run: seq<Step>)
    requires IsRun(cfg, run) && NoAdminApprovals(run) && QuotaNeverLowered(run)
    ensures After(cfg, run).quota == QuotaOf(run)
    ensures |ApprovedInstallations(After(cfg, run))| <= QuotaOf(run)
  {
    if run == [] {
      assert ApprovedInstallations(START) == {};
    } else {
      var n := |run| - 1;
      hide ApprovedInstallations;
      var s := After(cfg, run[..n]);
      assert forall i :: 0 <= i <= n ==> run[..n][..i] == run[..i];
      QuotaIsAnInvariant(cfg, run[..n]);
      assert run[..n + 1] == run;
      OnlyAdministratorsSetQuota(s, cfg, run[n].now, run[n].call);
      hide Handle, WithinQuota;
      if run[n].call.CallCreateRequest? {
        AutoApprovalRespectsQuota(s, cfg, run[n].now, run[n].call);
      } else {
        OtherStepsApproveNoOne(s, cfg, run[n].now, run[n].call);
      }
    }
  }
}
