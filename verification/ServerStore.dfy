/** The server repository's methods, each proved to be the transaction of the same name in ServerListing. */
module ServerStore {
  import opened Wrappers
  import opened Jobs
  import opened ServerListing

  class Store {
    var listings: map<ServerId, Listing>
    var jobs: map<JobId, Job<ServerId>>

    ghost function Rows(): Tables
      reads this
    {
      Tables(listings, jobs)
    }

    constructor ()
      ensures Rows() == START.t
    {
      listings, jobs := map[], map[];
    }

    /** INSERT ... WHERE NOT EXISTS. */
    method EnqueueServerCheckTx(id: ServerId, jobId: JobId)
      requires jobId !in jobs
      modifies this
      ensures Rows() == EnqueueCheck(old(Rows()), id, jobId)
    {
      var unseen := jobs.Keys;
      while unseen != {}
        invariant unseen <= jobs.Keys && Rows() == old(Rows())
        invariant forall j | j in jobs.Keys - unseen :: !LiveJobFor(jobs, j, id)
        decreases |unseen|
      {
        var j :| j in unseen;
        if jobs[j].payload == id && (jobs[j].status == Pending || jobs[j].status == Running) {
          assert LiveJobFor(jobs, j, id);
          return;
        }
        unseen := unseen - {j};
      }
      assert !HasLiveJob(jobs, id);
      jobs := jobs[jobId := NewJob(ServerCheckQueue, id, None, CHECK_ATTEMPTS)];
    }

    method CreateListing(id: ServerId, owner: OwnerId, endpoint: Endpoint, visibility: Visibility, jobId: JobId)
      requires id !in listings && jobId !in jobs
      modifies this
      ensures Create(old(Rows()), id, owner, endpoint, visibility, jobId) == Some(Rows())
    {
      listings := listings[id :=
        Listing(owner, endpoint, visibility, PendingVerification, CheckPending, None, None, None)];
      EnqueueServerCheckTx(id, jobId);
    }

    /** Fields that are not given stay as they were; a password may be given as none. */
    method UpdateOwned(owner: OwnerId, id: ServerId, address: Option<Address>, password: Option<Option<Ciphertext>>,
                       visibility: Option<Visibility>, jobId: JobId)
      returns (ok: bool)
      requires jobId !in jobs
      modifies this
      ensures ok == Owned(old(Rows()), owner, id)
      ensures ok ==> var before := old(listings[id]);
        var endpoint := Endpoint(address.GetOr(before.endpoint.address), password.GetOr(before.endpoint.password));
        Update(old(Rows()), owner, id, endpoint, visibility.GetOr(before.visibility), jobId) == Some(Rows())
      ensures !ok ==> Rows() == old(Rows())
    {
      if id !in listings || listings[id].owner != owner || listings[id].deletedAt != None { return false; }
      var before := listings[id];
      var host, secret, shown := before.endpoint.address, before.endpoint.password, before.visibility;
      if address.Some? { host := address.value; }
      if password.Some? { secret := password.value; }
      if visibility.Some? { shown := visibility.value; }
      var endpointChanged := host != before.endpoint.address || secret != before.endpoint.password;
      var after := before.(endpoint := Endpoint(host, secret), visibility := shown);
      if endpointChanged { after := after.(status := PendingVerification, check := CheckPending); }
      listings := listings[id := after];
      if endpointChanged { EnqueueServerCheckTx(id, jobId); }
      ok := true;
    }

    method RequestVerification(owner: OwnerId, id: ServerId, jobId: JobId) returns (ok: bool)
      requires jobId !in jobs
      modifies this
      ensures ok == Owned(old(Rows()), owner, id)
      ensures Rows() == ServerListing.RequestVerification(old(Rows()), owner, id, jobId).GetOr(old(Rows()))
    {
      if id !in listings || listings[id].owner != owner || listings[id].deletedAt != None { return false; }
      listings := listings[id := listings[id].(status := PendingVerification, check := CheckPending)];
      EnqueueServerCheckTx(id, jobId);
      ok := true;
    }

    method DeleteOwned(owner: OwnerId, id: ServerId, now: Time) returns (ok: bool)
      modifies this
      ensures ok == Owned(old(Rows()), owner, id)
      ensures Rows() == Delete(old(Rows()), owner, id, now).GetOr(old(Rows()))
    {
      if id !in listings || listings[id].owner != owner || listings[id].deletedAt != None { return false; }
      listings := listings[id := listings[id].(status := Deleted, deletedAt := Some(now))];
      ok := true;
    }

    method CompleteCheck(id: ServerId, result: CheckStatus, at: Time)
      modifies this
      ensures Rows() == ServerListing.CompleteCheck(old(Rows()), id, result, at)
    {
      if id !in listings || listings[id].deletedAt != None || listings[id].status == Hidden { return; }
      var l := listings[id].(check := result);
      if result == CheckOnline {
        if l.status in {PendingVerification, Offline, CheckFailed} { l := l.(status := Published); }
        if l.publishedAt == None { l := l.(publishedAt := Some(at)); }
      } else if result == CheckOffline {
        if l.status in {PendingVerification, Published} { l := l.(status := Offline); }
      } else if result == CheckErrored {
        if l.status in {PendingVerification, Published, Offline} { l := l.(status := CheckFailed); }
      }
      listings := listings[id := l];
    }

    method SetAdminStatus(id: ServerId, hiding: bool, now: Time) returns (ok: bool)
      modifies this
      ensures ok == (id in old(listings))
      ensures Rows() == ServerListing.SetAdminStatus(old(Rows()), id, hiding, now).GetOr(old(Rows()))
    {
      if id !in listings { return false; }
      var l := listings[id];
      var hiddenAt := if hiding then Some(now) else None;
      if l.deletedAt == None {
        listings := listings[id := l.(status := (if hiding then Hidden else Published), hiddenAt := hiddenAt)];
      }
      ok := true;
    }
  }
}
