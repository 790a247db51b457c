/** How the scheduler answers a tick's questions about a package (app/scheduler/main.py). */
module Scheduler {
  import opened Wrappers
  import opened Tables
  import opened Lifecycle
  import opened Ownership
  import opened Repository
  import opened UnitOfWork
  import opened Monitor
  import opened Settling

  lemma NamesAreIndexed(database: Database)
    requires database.Valid()
    ensures forall p :: p in database.tables.packages ==>
              var name := database.tables.packages[p].name;
              name in database.tables.packageIds && database.tables.packageIds[name] == p
    ensures forall name :: name in database.tables.packageIds ==>
              var p := database.tables.packageIds[name];
              p in database.tables.packages && database.tables.packages[p].name == name
  {
    ValidIsReachable(database);
    InvReachable(database.state);
    hide Reachable;
  }

  /** Loading by name finds what the settling of a package is stated about. */
  method LoadPackageScanState(database: Database, packageName: string) returns (state: PackageScanState)
    requires database.Valid()
    ensures state == LoadState(database.tables, packageName)
  {
    NamesAreIndexed(database);
    hide Database.Valid;
    var session := new Session(database.tables);
    var repository := new SqlAlchemyPackageRepository(session);
    var packageId := repository.GetByName(packageName);
    match packageId
    case None => state := PackageScanState(None, None);
    case Some(p) => state := PackageScanState(Some(p), session.packages[p].latestScanned);
  }

  method HasRunningScan(database: Database, packageId: PackageId) returns (running: bool)
    ensures running <==> HasRunning(database.tables, packageId)
  {
    var session := new Session(database.tables);
    var repository := new SqlAlchemyPackageRepository(session);
    running := repository.HasRunningScan(packageId);
  }
}
