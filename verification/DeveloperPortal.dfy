/** The developer portal's store with its state in place. */
module DeveloperPortal {
  import opened Wrappers
  import opened Environments
  import opened Lists
  import opened DeveloperPortalStore
  import opened ServiceCodes

  class Store {
    var applications: seq<Application>
    var services: seq<Service>
    var scopeRequests: seq<ScopeRequest>
    var rotations: seq<Rotation>

    constructor ()
      ensures View() == Portal([], [], [], [])
    {
      applications, services, scopeRequests, rotations := [], [], [], [];
    }

    ghost function View(): Portal
      reads this
    {
      Portal(applications, services, scopeRequests, rotations)
    }

    method SubmitApplication(a: Application)
      modifies this
      ensures View() == Submit(old(View()), a)
    {
      applications := [a.(status := PendingReview, serviceCode := "")] + applications;
    }

    method ApproveApplication(id: string, serviceCode: string, active: bool, grant: bool) returns (r: Outcome)
      modifies this
      ensures (View(), r) == Approve(old(View()), id, serviceCode, active, grant)
    {
      var n := IndexOfApplication(applications, id);
      if n == |applications| { return Failed(ApplicationNotFound); }
      var a := applications[n];
      if a.status == Approved && a.serviceCode != "" {
        return if Lookup(services, a.serviceCode) < |services| then Done else Failed(ServiceNotFound);
      }
      var code := NextServiceCode(services, if serviceCode != "" then serviceCode else a.displayName);
      services := [NewService(code, a, active, grant)] + services;
      applications := applications[n := a.(status := Approved, serviceCode := code)];
      r := Done;
    }

    method SubmitScopeRequest(
      code: string, environment: Environment, scopes: seq<string>, freshId: string) returns (r: Outcome)
      modifies this
      ensures (View(), r) == SubmitRequest(old(View()), code, environment, scopes, freshId)
    {
      var n := Lookup(services, code);
      if n == |services| { return Failed(ServiceNotFound); }
      var s := services[n];
      var refusal := RequestRefusal(s, environment, scopes);
      if refusal.Failed? { return refusal; }
      services := services[n := s.(scopesPending := Unique(s.scopesPending + scopes))];
      scopeRequests := [ScopeRequest(freshId, s.serviceCode, environment, scopes, PendingReview)] + scopeRequests;
      r := Done;
    }

    method DecideScopeRequest(id: string, approve: bool) returns (r: Outcome)
      modifies this
      ensures (View(), r) == DecideRequest(old(View()), id, approve)
    {
      var i := IndexOfRequest(scopeRequests, id);
      if i == |scopeRequests| { return Failed(ScopeRequestNotFound); }
      var record := scopeRequests[i];
      if record.status != PendingReview { return Failed(ScopeRequestAlreadyDecided); }
      var n := Lookup(services, record.serviceCode);
      if n == |services| { return Failed(ServiceNotFound); }
      var s := services[n];
      if record.environment !in s.environments { return Failed(ScopeEnvironmentNotEnabled); }
      if s.status == Suspended || s.status == Rejected || s.status == Archived { return Failed(ServiceNotEligible); }
      scopeRequests := scopeRequests[i := record.(status := if approve then Approved else Declined)];
      if approve { s := s.(scopesGranted := Unique(s.scopesGranted + record.requestedScopes)); }
      s := s.(scopesPending := Without(s.scopesPending, record.requestedScopes));
      services := services[n := s];
      r := Done;
    }

    method UpdateServiceStatus(code: string, status: ServiceStatus) returns (r: Outcome)
      modifies this
      ensures (View(), r) == ChangeStatus(old(View()), code, status)
    {
      var n := Lookup(services, code);
      if n == |services| { return Failed(ServiceNotFound); }
      services := services[n := services[n].(status := status)];
      r := Done;
    }

    method IssueApiKey(
      code: string, environment: Environment, liveReady: bool, keyId: string, fingerprint: string,
      expiresAt: Option<int>)
      returns (r: Outcome)
      modifies this
      ensures (View(), r) == IssueKey(old(View()), code, environment, liveReady, keyId, fingerprint, expiresAt)
    {
      var n := Lookup(services, code);
      if n == |services| { return Failed(ServiceNotFound); }
      var s := services[n];
      if environment == Live {
        if Live !in s.environments { return Failed(LiveEnvironmentNotEnabled); }
        if !liveReady { return Failed(LiveDomainVerificationRequired); }
      }
      var record := ApiKey(keyId, environment, KeyActive, fingerprint, expiresAt);
      services := services[n := s.(keys := Restatus(s.keys, environment, KeyActive, PendingCutover) + [record])];
      r := Done;
    }

    method EmergencyRotateApiKey(
      code: string, environment: Environment, revokePrevious: bool, keyId: string, fingerprint: string)
      returns (r: Outcome)
      modifies this
      ensures (View(), r) == EmergencyRotate(old(View()), code, environment, revokePrevious, keyId, fingerprint)
    {
      var n := Lookup(services, code);
      if n == |services| { return Failed(ServiceNotFound); }
      var s := services[n];
      var record := ApiKey(keyId, environment, KeyActive, fingerprint, None);
      var previous := if revokePrevious then KeyRevoked else PendingCutover;
      services := services[n := s.(keys := Restatus(s.keys, environment, KeyActive, previous) + [record])];
      r := Done;
    }

    method RequestApiKeyRotation(code: string, environment: Environment, freshId: string) returns (r: Outcome)
      modifies this
      ensures (View(), r) == RequestRotation(old(View()), code, environment, freshId)
    {
      var n := Lookup(services, code);
      if n == |services| { return Failed(ServiceNotFound); }
      rotations := [Rotation(freshId, services[n].serviceCode, environment, RotationRequested)] + rotations;
      r := Done;
    }

    method DecideApiKeyRotation(id: string, decision: RotationDecision) returns (r: Outcome)
      modifies this
      ensures (View(), r) == DecideRotation(old(View()), id, decision)
    {
      var i := IndexOfRotation(rotations, id);
      if i == |rotations| { return Failed(RotationNotFound); }
      var n := Lookup(services, rotations[i].serviceCode);
      if n == |services| { return Failed(ServiceNotFound); }
      if decision == CompleteRotation {
        var s := services[n];
        services := services[n := s.(keys := Restatus(s.keys, rotations[i].environment, PendingCutover, KeyRevoked))];
      }
      var status := match decision
        case ApproveRotation => RotationApproved
        case CompleteRotation => RotationCompleted
        case RejectRotation => RotationRejected;
      rotations := rotations[i := rotations[i].(status := status)];
      r := Done;
    }

    method RevokeApiKey(code: string, keyId: string) returns (r: Outcome)
      modifies this
      ensures (View(), r) == RevokeKey(old(View()), code, keyId)
    {
      var n := Lookup(services, code);
      if n == |services| { return Failed(ServiceNotFound); }
      var s := services[n];
      var k := IndexOfKey(s.keys, keyId);
      if k == |s.keys| { return Failed(ApiKeyNotFound); }
      services := services[n := s.(keys := s.keys[k := s.keys[k].(status := KeyRevoked)])];
      r := Done;
    }

    method ResolveApiKey(fingerprint: string, now: int) returns (r: Option<(Service, ApiKey)>)
      ensures r == Resolve(services, fingerprint, now)
    {
      var i := 0;
      assert services[0..] == services;
      while i < |services|
        invariant 0 <= i <= |services|
        invariant Resolve(services, fingerprint, now) == Resolve(services[i..], fingerprint, now)
      {
        assert services[i..][1..] == services[i + 1..];
        var key := UsableKey(services[i].keys, fingerprint, now);
        if services[i].status == Active && key.Some? { return Some((services[i], key.value)); }
        i := i + 1;
      }
      return None;
    }
  }
}
