/** The three management requests as the API serves them, each in one transaction around the repository's change. */
module Api {
  import opened Tables
  import opened Protocol
  import opened Management
  import opened Postgres

  /** Each request has a repository of its own over the shared tables. */
  class ManagementApi {
    const repo: PostgresRepository

    constructor (db: Database)
      ensures repo.db == db && !repo.current && fresh(repo)
    {
      repo := new PostgresRepository(db);
    }

    /** A deleted device has to be restored first. */
    method Monitoring(device: string, enabled: bool, reason: string) returns (reply: Reply)
      requires !repo.current && repo.db.Valid()
      modifies repo, repo.db
      ensures !repo.current && repo.db.Valid()
      ensures repo.db.Tables() == Served(old(repo.db.Tables()), Request.Monitoring(device, enabled, reason))
      ensures reply == Answer(old(repo.db.Tables()), Request.Monitoring(device, enabled, reason))
      ensures reply == NotFound <==> device !in old(repo.db.devices)
      ensures reply == Conflict <==> device in old(repo.db.devices) && old(repo.db.devices)[device].deleted
      ensures reply != Done ==> repo.db.Tables() == old(repo.db.Tables())
      ensures reply == Done ==>
                && repo.db.devices == old(repo.db.devices)[device := Device(enabled, false, reason)]
                && SettingsChanged(old(repo.db.Tables()), repo.db.Tables(), device, Device(enabled, false, reason))
    {
      ServedFulfils(repo.db.Tables(), Request.Monitoring(device, enabled, reason));
      var outermost := repo.Begin();
      var _ := repo.LockManagement(device);
      if device !in repo.db.devices {
        repo.RollBack(outermost);
        return NotFound;
      }
      if repo.db.devices[device].deleted {
        repo.RollBack(outermost);
        return Conflict;
      }
      var _ := repo.Manage(device, enabled, false, reason);
      var _ := repo.Commit(outermost, Clean);
      reply := Done;
    }

    method Delete(device: string, reason: string) returns (reply: Reply)
      requires !repo.current && repo.db.Valid()
      modifies repo, repo.db
      ensures !repo.current && repo.db.Valid()
      ensures repo.db.Tables() == Served(old(repo.db.Tables()), Request.Delete(device, reason))
      ensures reply == Answer(old(repo.db.Tables()), Request.Delete(device, reason))
      ensures reply == NotFound <==> device !in old(repo.db.devices)
      ensures reply != Conflict
      ensures reply != Done ==> repo.db.Tables() == old(repo.db.Tables())
      ensures reply == Done ==>
                && repo.db.devices == old(repo.db.devices)[device := Device(false, true, reason)]
                && SettingsChanged(old(repo.db.Tables()), repo.db.Tables(), device, Device(false, true, reason))
    {
      ServedFulfils(repo.db.Tables(), Request.Delete(device, reason));
      var outermost := repo.Begin();
      var found := repo.Manage(device, false, true, reason);
      if !found {
        repo.RollBack(outermost);
        return NotFound;
      }
      var _ := repo.Commit(outermost, Clean);
      reply := Done;
    }

    /** Restoring leaves the device disabled: monitoring is resumed by a request of its own. */
    method Restore(device: string) returns (reply: Reply)
      requires !repo.current && repo.db.Valid()
      modifies repo, repo.db
      ensures !repo.current && repo.db.Valid()
      ensures repo.db.Tables() == Served(old(repo.db.Tables()), Request.Restore(device))
      ensures reply == Answer(old(repo.db.Tables()), Request.Restore(device))
      ensures reply == NotFound <==> device !in old(repo.db.devices)
      ensures reply == Conflict <==> device in old(repo.db.devices) && !old(repo.db.devices)[device].deleted
      ensures reply != Done ==> repo.db.Tables() == old(repo.db.Tables())
      ensures var row := Device(false, false, "Restored by API");
              reply == Done ==>
                && repo.db.devices == old(repo.db.devices)[device := row]
                && SettingsChanged(old(repo.db.Tables()), repo.db.Tables(), device, row)
    {
      ServedFulfils(repo.db.Tables(), Request.Restore(device));
      var outermost := repo.Begin();
      var _ := repo.LockManagement(device);
      if device !in repo.db.devices {
        repo.RollBack(outermost);
        return NotFound;
      }
      if !repo.db.devices[device].deleted {
        repo.RollBack(outermost);
        return Conflict;
      }
      var _ := repo.Manage(device, false, false, "Restored by API");
      var _ := repo.Commit(outermost, Clean);
      reply := Done;
    }

    method Serve(r: Request) returns (reply: Reply)
      requires !repo.current && repo.db.Valid()
      modifies repo, repo.db
      ensures !repo.current && repo.db.Valid()
      ensures repo.db.Tables() == Served(old(repo.db.Tables()), r) && reply == Answer(old(repo.db.Tables()), r)
    {
      match r {
        case Monitoring(d, enabled, reason) => reply := Monitoring(d, enabled, reason);
        case Delete(d, reason) => reply := Delete(d, reason);
        case Restore(d) => reply := Restore(d);
      }
    }
  }
}
