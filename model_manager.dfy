/** src/maintenance/model_manager.rs: the avatar model's versions, switching between them, and
  * the history of switches, each also announced on a broadcast channel. Times are an injected
  * clock. */
module ModelManager {
  import opened Wrappers
  import opened Collections

  datatype ModelVersion = ModelVersion(version: string, releaseDate: int, features: seq<string>,
                                       animations: map<string, string>, isActive: bool)

  datatype ModelUpdate = ModelUpdate(fromVersion: string, toVersion: string, changes: seq<string>, timestamp: int)

  /** Each switch starts from the version the previous one ended at, and the last ends at the
    * current version. */
  predicate Chained(history: seq<ModelUpdate>, current: string) {
    (forall i :: 0 < i < |history| ==> history[i].fromVersion == history[i - 1].toVersion)
    && (history != [] ==> history[|history| - 1].toVersion == current)
  }

  class ModelManager {
    var currentVersion: ModelVersion
    var availableVersions: map<string, ModelVersion>
    var updateHistory: seq<ModelUpdate>
    /** What has been sent on the broadcast channel, oldest first. */
    var broadcasts: seq<ModelUpdate>

    /** Versions are filed under their own names, and the history is a chain ending at the
      * current version. */
    predicate Valid()
      reads this
    {
      (forall v :: v in availableVersions ==> availableVersions[v].version == v)
      && Chained(updateHistory, currentVersion.version)
    }

    /** `new`: the initial version is current and the only one available. */
    constructor (initial: ModelVersion)
      ensures Valid()
      ensures currentVersion == initial && availableVersions == map[initial.version := initial]
      ensures updateHistory == [] && broadcasts == []
    {
      currentVersion := initial;
      availableVersions := map[initial.version := initial];
      updateHistory := [];
      broadcasts := [];
    }

    /** `update_model` at `now`: an unknown or inactive version is refused with nothing changed;
      * otherwise it becomes current, and the switch is logged and broadcast. */
    method UpdateModel(newVersion: string, now: int) returns (r: Result<()>)
      requires Valid()
      modifies this`currentVersion, this`updateHistory, this`broadcasts
      ensures Valid()
      ensures newVersion !in availableVersions ==>
                r == Err("Version not found") && currentVersion == old(currentVersion)
                && updateHistory == old(updateHistory) && broadcasts == old(broadcasts)
      ensures newVersion in availableVersions && !availableVersions[newVersion].isActive ==>
                r == Err("Version is not ready for activation") && currentVersion == old(currentVersion)
                && updateHistory == old(updateHistory) && broadcasts == old(broadcasts)
      ensures newVersion in availableVersions && availableVersions[newVersion].isActive ==>
                var u := ModelUpdate(old(currentVersion).version, newVersion, availableVersions[newVersion].features, now);
                r == Ok(()) && currentVersion == availableVersions[newVersion]
                && updateHistory == old(updateHistory) + [u] && broadcasts == old(broadcasts) + [u]
    {
      if newVersion !in availableVersions {
        return Err("Version not found");
      }
      var version := availableVersions[newVersion];
      if !version.isActive {
        return Err("Version is not ready for activation");
      }
      var update := ModelUpdate(currentVersion.version, newVersion, version.features, now);
      currentVersion := version;
      updateHistory := updateHistory + [update];
      broadcasts := broadcasts + [update];
      r := Ok(());
    }

    /** `add_version`: filed under its name, replacing any version of that name; the current
      * version is untouched. */
    method AddVersion(version: ModelVersion)
      requires Valid()
      modifies this`availableVersions
      ensures Valid()
      ensures availableVersions == old(availableVersions)[version.version := version]
    {
      availableVersions := availableVersions[version.version := version];
    }

    /** `list_available_versions`, in the hash map's `order`: every available version, once. */
    function ListAvailableVersions(order: seq<string>): (r: seq<ModelVersion>)
      reads this
      requires VisitOrder(order, availableVersions)
      ensures |r| == |order|
      ensures forall v :: v in r <==> exists k :: k in availableVersions && availableVersions[k] == v
    {
      var versions := availableVersions;
      var r := seq(|order|, i requires 0 <= i < |order| => versions[order[i]]);
      assert forall k :: k in versions ==> exists i :: 0 <= i < |order| && order[i] == k && r[i] == versions[k];
      r
    }
  }

  /** From v1, switching to an active v2 logs the switch; an inactive v3 and an unknown name are
    * refused, and the log is unchanged by them. */
  method SwitchScenario(v1: ModelVersion, v2: ModelVersion, v3: ModelVersion, now: int)
    returns (ok: Result<()>, inactive: Result<()>, unknown: Result<()>, history: seq<ModelUpdate>)
    requires v2.isActive && !v3.isActive
    requires v1.version == "1.0" && v2.version == "2.0" && v3.version == "3.0"
    ensures ok == Ok(()) && inactive.Err? && unknown == Err("Version not found")
    ensures history == [ModelUpdate("1.0", "2.0", v2.features, now)]
  {
    var m := new ModelManager(v1);
    m.AddVersion(v2);
    m.AddVersion(v3);
    ok := m.UpdateModel("2.0", now);
    inactive := m.UpdateModel("3.0", now + 1);
    assert "4.0" !in m.availableVersions;
    unknown := m.UpdateModel("4.0", now + 2);
    history := m.updateHistory;
  }
}
