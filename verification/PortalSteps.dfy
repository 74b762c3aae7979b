/** What each call of the developer portal needs and leaves, exactly and in terms of the records. */
module PortalSteps {
  import opened Wrappers
  import opened Environments
  import opened Lists
  import opened Slugs
  import opened DeveloperPortalStore

  /** Each of the others once. */
  ghost predicate Once(items: seq<string>, others: seq<string>) {
    NoRepeats(items) && forall x :: x in items <==> x in others
  }

  /** The service that an approval makes of an application: with its environments, a draft unless it is made
      active, and its scopes all granted or all pending. */
  ghost predicate MadeOf(s: Service, a: Application, active: bool, grant: bool) {
    && s.status == (if active then Active else Draft) && s.keys == []
    && NoRepeats(s.environments) && (forall e :: e in s.environments <==> e in a.requestedEnvironments)
    && Once(s.scopesGranted, if grant then a.requestedScopes else [])
    && Once(s.scopesPending, if grant then [] else a.requestedScopes)
  }

  /** An application is put first, awaiting review. */
  lemma SubmittedFirst(p: Portal, a: Application)
    ensures var p' := Submit(p, a);
      && |p'.applications| == |p.applications| + 1 && p'.applications[1..] == p.applications
      && p'.applications[0] == a.(status := PendingReview, serviceCode := "")
      && p' == p.(applications := p'.applications)
  {
  }

  /** An application is made a service once; the service comes first, under the first free code of the name that
      the operator gives, or else the applicant's. */
  lemma ApprovedOnce(p: Portal, id: string, serviceCode: string, active: bool, grant: bool)
    ensures
      var (p', outcome) := Approve(p, id, serviceCode, active, grant);
      var n := IndexOfApplication(p.applications, id);
      if n == |p.applications| then outcome == Failed(ApplicationNotFound) && p' == p
      else
        var a := p.applications[n];
        if a.status == Approved && a.serviceCode != ""
        then
          p' == p && outcome ==
            if IndexOf(p.services, Slug(a.serviceCode)) < |p.services| then Done else Failed(ServiceNotFound)
        else
          && outcome == Done && |p'.services| == |p.services| + 1 && p'.services[1..] == p.services
          && MadeOf(p'.services[0], a, active, grant)
          && p'.services[0].serviceCode ==
               NextCode(p.services, if serviceCode == "" then a.displayName else serviceCode)
          && p' == p.(services := p'.services, applications :=
               p.applications[n := a.(status := Approved, serviceCode := p'.services[0].serviceCode)])
  {
    var n := IndexOfApplication(p.applications, id);
    if n < |p.applications| {
      UniqueLaws(p.applications[n].requestedScopes);
      UniqueLaws(p.applications[n].requestedEnvironments);
    }
  }

  /** A request for scopes is taken if and only if the code finds a service, a draft or active one, with the
      environment, and none of the scopes is granted or pending; it is put first, open, and they are pending. */
  lemma RequestedIff(p: Portal, code: string, environment: Environment, scopes: seq<string>, freshId: string)
    ensures
      var (p', outcome) := SubmitRequest(p, code, environment, scopes, freshId);
      var n := IndexOf(p.services, Slug(code));
      if && n < |p.services| && environment in p.services[n].environments
         && (p.services[n].status == Draft || p.services[n].status == Active)
         && (forall x <- scopes :: x !in p.services[n].scopesGranted && x !in p.services[n].scopesPending)
      then
        var s' := p'.services[n];
        && outcome == Done && p'.services == p.services[n := p.services[n].(scopesPending := s'.scopesPending)]
        && (forall x :: x in s'.scopesPending <==> x in p.services[n].scopesPending || x in scopes)
        && p' == p.(services := p'.services, scopeRequests :=
             [ScopeRequest(freshId, Slug(code), environment, scopes, PendingReview)] + p.scopeRequests)
      else
        p' == p && outcome == Failed(
          if n == |p.services| then ServiceNotFound
          else if environment !in p.services[n].environments then ScopeEnvironmentNotEnabled
          else if p.services[n].status != Draft && p.services[n].status != Active then ServiceNotEligible
          else if exists x :: x in scopes && x in p.services[n].scopesGranted then ScopeAlreadyGranted
          else ScopeAlreadyPending)
  {
    var n := IndexOf(p.services, Slug(code));
    if n < |p.services| { UniqueLaws(p.services[n].scopesPending + scopes); }
  }

  /** A request is decided if and only if it is open and its code, slugged, finds a service, a draft or active
      one, with its environment. */
  lemma DecidedIff(p: Portal, id: string, approve: bool)
    ensures
      var (p', outcome) := DecideRequest(p, id, approve);
      var i := IndexOfRequest(p.scopeRequests, id);
      if && i < |p.scopeRequests| && p.scopeRequests[i].status == PendingReview
         && var n := IndexOf(p.services, Slug(p.scopeRequests[i].serviceCode));
         && n < |p.services| && p.scopeRequests[i].environment in p.services[n].environments
         && (p.services[n].status == Draft || p.services[n].status == Active)
      then
        var status := if approve then Approved else Declined;
        outcome == Done && p'.scopeRequests == p.scopeRequests[i := p.scopeRequests[i].(status := status)]
      else
        p' == p && outcome == Failed(
          if i == |p.scopeRequests| then ScopeRequestNotFound
          else if p.scopeRequests[i].status != PendingReview then ScopeRequestAlreadyDecided
          else
            var n := IndexOf(p.services, Slug(p.scopeRequests[i].serviceCode));
            if n == |p.services| then ServiceNotFound
            else if p.scopeRequests[i].environment !in p.services[n].environments then ScopeEnvironmentNotEnabled
            else ServiceNotEligible)
  {
  }

  /** Live keys need the live environment and verified hostnames; a new key is put last, and is active. */
  lemma IssuedIff(
    p: Portal, code: string, environment: Environment, liveReady: bool, keyId: string, fingerprint: string,
    expiresAt: Option<int>)
    ensures
      var (p', outcome) := IssueKey(p, code, environment, liveReady, keyId, fingerprint, expiresAt);
      var n := IndexOf(p.services, Slug(code));
      if n < |p.services| && (environment == Live ==> Live in p.services[n].environments && liveReady)
      then
        && outcome == Done && n < |p'.services| && |p'.services[n].keys| == |p.services[n].keys| + 1
        && p'.services[n].keys[|p.services[n].keys|] == ApiKey(keyId, environment, KeyActive, fingerprint, expiresAt)
        && p' == p.(services := p.services[n := p.services[n].(keys := p'.services[n].keys)])
      else
        p' == p && outcome == Failed(
          if n == |p.services| then ServiceNotFound
          else if Live !in p.services[n].environments then LiveEnvironmentNotEnabled
          else LiveDomainVerificationRequired)
  {
  }

  /** An emergency rotation asks for no environment; its key does not expire. */
  lemma RotatedIff(
    p: Portal, code: string, environment: Environment, revokePrevious: bool, keyId: string, fingerprint: string)
    ensures
      var (p', outcome) := EmergencyRotate(p, code, environment, revokePrevious, keyId, fingerprint);
      var n := IndexOf(p.services, Slug(code));
      if n < |p.services|
      then
        && outcome == Done && n < |p'.services| && |p'.services[n].keys| == |p.services[n].keys| + 1
        && p'.services[n].keys[|p.services[n].keys|] == ApiKey(keyId, environment, KeyActive, fingerprint, None)
        && p' == p.(services := p.services[n := p.services[n].(keys := p'.services[n].keys)])
      else outcome.Failed? && p' == p
  {
  }

  /** A rotation is put first, pending; each decision writes its own status. */
  lemma RotationsRecorded(
    p: Portal, code: string, environment: Environment, freshId: string, id: string, decision: RotationDecision)
    ensures
      var (p', outcome) := RequestRotation(p, code, environment, freshId);
      if IndexOf(p.services, Slug(code)) < |p.services|
      then
        outcome == Done && p' == p.(
          rotations := [Rotation(freshId, Slug(code), environment, RotationRequested)] + p.rotations)
      else outcome.Failed? && p' == p
    ensures
      var (p', outcome) := DecideRotation(p, id, decision);
      var i := IndexOfRotation(p.rotations, id);
      if i < |p.rotations| && IndexOf(p.services, Slug(p.rotations[i].serviceCode)) < |p.services|
      then
        var status := if decision == ApproveRotation then RotationApproved
          else if decision == CompleteRotation then RotationCompleted else RotationRejected;
        && outcome == Done && p'.rotations == p.rotations[i := p.rotations[i].(status := status)]
        && (decision != CompleteRotation ==> p'.services == p.services)
      else p' == p && outcome == Failed(if i == |p.rotations| then RotationNotFound else ServiceNotFound)
  {
  }

  /** The status of a service changes, whatever it was. */
  lemma StatusSet(p: Portal, code: string, status: ServiceStatus)
    ensures
      var (p', outcome) := ChangeStatus(p, code, status);
      var n := IndexOf(p.services, Slug(code));
      if n < |p.services|
      then outcome == Done && p' == p.(services := p.services[n := p.services[n].(status := status)])
      else outcome.Failed? && p' == p
  {
  }

  // --------------------------------------------------------------------- codes

  const NUMERALS := "0123456789"

  /** The candidates of a name: its slug, then the slug with a hyphen and a number from 2 on. */
  lemma CandidatesNumbered(base: string, k: nat)
    ensures Candidate(base, 0) == Candidate(base, 1) == base
    ensures k >= 2 ==> Candidate(base, k) == base + "-" + Decimal(k)
    ensures |NUMERALS| == 10 && Decimal(k) == (if k < 10 then "" else Decimal(k / 10)) + [NUMERALS[k % 10]]
  {
    assert forall i :: 0 <= i < 10 ==> NUMERALS[i] == ('0' as int + i) as char;
  }
}
