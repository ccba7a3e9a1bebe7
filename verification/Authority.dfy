/** What connects approvals with dispatch. */
module Authority {
  import opened Records
  import opened DispatchProgram
  import opened Machine
  import opened Growth
  import opened AnyVersion
  import opened NoLookahead
  import opened Approvals

  /**
   A request whose mandate reached the provider stays approved, or is revoked later; it is never pending or rejected
   again.
   */
  lemma {:induction false} CalledRequestStaysDecided(lib: Library, steps: seq<Step>, k: nat, i: nat, job: DispatchJob)
    requires PoliteRun(lib, steps) && MovesFrom(lib, steps, k, i, job, CallProvider)
    ensures job.request in Reach(lib, steps).s.requests
    ensures Reach(lib, steps).s.requests[job.request].status in {Approved, Revoked}
  {
    var approved, won, inserted, journaled := ProviderCallHistory(lib, steps, k, i, job);
    PoliteRunPrefix(lib, steps, approved);
    StatusIsVersion(lib, steps[..approved], job.request);
    RunGrows(lib, steps, approved);
    StatusIsVersion(lib, steps, job.request);
    assert NewerRequest(Reach(lib, steps[..approved]).s.requests[job.request],
                        Reach(lib, steps).s.requests[job.request]);
  }
}
