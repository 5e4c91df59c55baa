/** src/model/version_control.rs: model versions keyed by "major.minor.patch", a working
  * branch that is committed to and merged back under the next version number. */
module VersionControl {
  import opened Wrappers
  import opened Strings

  datatype ChangeReason = ViewerFeedback | PerformanceOptimization | BrandConsistency | FeatureAddition | BugFix

  datatype ModelChange = ModelChange(component: string, description: string, reason: ChangeReason,
                                     viewerFeedbackScore: Option<real>)

  /** A stored model version. The design specification and metrics it carries are opaque here. */
  datatype ModelVersion = ModelVersion(version: string, timestamp: nat, changes: seq<ModelChange>,
                                       approvedBy: Option<string>)

  const U32Max: nat := 0xFFFF_FFFF

  /** `s.parse::<u32>()`: an optional '+', then one or more ASCII digits, with a value that fits in 32 bits. */
  function ParseU32(s: string): (r: Option<nat>)
    ensures r.Some? ==> r.value <= U32Max
  {
    var digits := if |s| > 0 && s[0] == '+' then s[1..] else s;
    if |digits| > 0 && AllDigits(digits) && DigitsValue(digits) <= U32Max then Some(DigitsValue(digits))
    else None
  }

  /** `s.parse().unwrap_or(0)`. */
  function FieldValue(s: string): nat {
    match ParseU32(s)
    case Some(v) => v
    case None => 0
  }

  /** The numeric fields of a version string, split at '.'. */
  function Fields(version: string): (parts: seq<nat>)
    ensures |parts| == |Split(version, '.')|
  {
    var fs := Split(version, '.');
    seq(|fs|, k requires 0 <= k < |fs| => FieldValue(fs[k]))
  }

  /** The three numbers after the increment with decimal carry; any other field count gives 1.0.0. */
  function Bumped(parts: seq<nat>): (r: seq<nat>)
    ensures |r| == 3
  {
    if |parts| != 3 then [1, 0, 0]
    else if parts[2] + 1 < 10 then [parts[0], parts[1], parts[2] + 1]
    else if parts[1] + 1 < 10 then [parts[0], parts[1] + 1, 0]
    else [parts[0] + 1, 0, 0]
  }

  /** `format!("{}.{}.{}", ..)`. */
  function Render(parts: seq<nat>): string
    requires |parts| == 3
  {
    NatToString(parts[0]) + "." + NatToString(parts[1]) + "." + NatToString(parts[2])
  }

  /** `increment_version`, mutating its vector of parts as the source does. */
  method IncrementVersion(version: string) returns (next: string)
    ensures next == Render(Bumped(Fields(version)))
  {
    var parts := Fields(version);
    if |parts| != 3 {
      parts := [1, 0, 0];
    } else {
      parts := parts[2 := parts[2] + 1];
      if parts[2] >= 10 {
        parts := parts[2 := 0];
        parts := parts[1 := parts[1] + 1];
        if parts[1] >= 10 {
          parts := parts[1 := 0];
          parts := parts[0 := parts[0] + 1];
        }
      }
    }
    next := Render(parts);
  }

  /** The patch number of every result is a single digit. */
  lemma BumpedPatchBelowTen(parts: seq<nat>)
    ensures Bumped(parts)[2] < 10
  {
  }

  /** A version whose minor and patch are single digits behaves as a decimal counter:
    * `100*major + 10*minor + patch` grows by exactly one. */
  lemma BumpedIsDecimalSuccessor(parts: seq<nat>)
    requires |parts| == 3 && parts[1] < 10 && parts[2] < 10
    ensures Bumped(parts)[1] < 10 && Bumped(parts)[2] < 10
    ensures 100 * Bumped(parts)[0] + 10 * Bumped(parts)[1] + Bumped(parts)[2]
         == 100 * parts[0] + 10 * parts[1] + parts[2] + 1
  {
  }

  /** The decimal form of a number is the digits it parses back from. */
  lemma ParseRendered(n: nat)
    requires n <= U32Max
    ensures FieldValue(NatToString(n)) == n
  {
    NatToStringRoundTrip(n);
  }

  /** Splitting a rendered version at '.' gives back its three numbers. */
  lemma FieldsOfRender(a: nat, b: nat, c: nat)
    requires a <= U32Max && b <= U32Max && c <= U32Max
    ensures Fields(Render([a, b, c])) == [a, b, c]
  {
    var sa, sb, sc := NatToString(a), NatToString(b), NatToString(c);
    var v := Render([a, b, c]);
    SplitAbsent(sc, '.');
    NoDotInNumber(a);
    NoDotInNumber(b);
    SplitAtFirst(sb, sc, '.');
    SplitAtFirst(sa, sb + "." + sc, '.');
    assert v == sa + "." + (sb + "." + sc);
    assert Split(v, '.') == [sa, sb, sc];
    ParseRendered(a);
    ParseRendered(b);
    ParseRendered(c);
  }

  lemma NoDotInNumber(n: nat)
    ensures '.' !in NatToString(n)
  {
  }

  /** Incrementing a rendered version renders the bumped numbers: the whole pipeline is a
    * round trip through the string form. */
  lemma IncrementRendered(a: nat, b: nat, c: nat)
    requires a <= U32Max && b <= U32Max && c <= U32Max
    ensures Render(Bumped(Fields(Render([a, b, c])))) == Render(Bumped([a, b, c]))
  {
    FieldsOfRender(a, b, c);
  }

  /** "1.0.9" becomes "1.1.0": the patch carries into the minor number. */
  lemma PatchCarries()
    ensures Render(Bumped(Fields(Render([1, 0, 9])))) == Render([1, 1, 0])
  {
    IncrementRendered(1, 0, 9);
  }

  /** "1.9.9" becomes "2.0.0": the carry ripples into the major number. */
  lemma MinorCarries()
    ensures Render(Bumped(Fields(Render([1, 9, 9])))) == Render([2, 0, 0])
  {
    IncrementRendered(1, 9, 9);
  }

  /** A version string that does not have exactly two dots becomes "1.0.0". */
  lemma WrongFieldCount(version: string)
    requires |Split(version, '.')| != 3
    ensures Bumped(Fields(version)) == [1, 0, 0]
  {
  }

  /** Non-numeric fields read as 0, so "x.y.z" becomes "0.0.1". */
  lemma NonNumericFields()
    ensures Bumped(Fields("x" + "." + "y" + "." + "z")) == [0, 0, 1]
  {
    var v := "x" + "." + "y" + "." + "z";
    assert v == "x" + "." + ("y" + "." + "z");
    SplitAbsent("z", '.');
    SplitAtFirst("y", "z", '.');
    SplitAtFirst("x", "y" + "." + "z", '.');
    assert Split(v, '.') == ["x", "y", "z"];
    assert !IsDigit('x') && !IsDigit('y') && !IsDigit('z');
    assert ParseU32("x") == None && ParseU32("y") == None && ParseU32("z") == None;
  }

  /** `ModelVersionControl`: the stored versions, the current version key and the working branch. */
  class ModelVersionControl {
    var versions: map<string, ModelVersion>
    var currentVersion: string
    var workingBranch: Option<string>
    var autoBackupEnabled: bool

    /** `new`: no versions, current version "1.0.0", no working branch. */
    constructor ()
      ensures versions == map[] && currentVersion == "1.0.0" && workingBranch == None
      ensures autoBackupEnabled
    {
      versions := map[];
      currentVersion := "1.0.0";
      workingBranch := None;
      autoBackupEnabled := true;
    }

    /** `create_working_branch`: copy the current version under the branch name. */
    method CreateWorkingBranch(branchName: string) returns (r: Result<()>)
      modifies this
      ensures old(currentVersion) !in old(versions) ==>
                r == Err("Current version not found") && unchanged(this)
      ensures old(currentVersion) in old(versions) ==>
                r == Ok(()) && workingBranch == Some(branchName)
                && versions == old(versions)[branchName := old(versions)[old(currentVersion)]]
                && currentVersion == old(currentVersion)
      ensures autoBackupEnabled == old(autoBackupEnabled)
    {
      if currentVersion !in versions {
        return Err("Current version not found");
      }
      var current := versions[currentVersion];
      workingBranch := Some(branchName);
      versions := versions[branchName := current];
      r := Ok(());
    }

    /** `commit_changes`: append to the working branch's changes and stamp it; otherwise nothing. */
    method CommitChanges(changes: seq<ModelChange>, now: nat) returns (r: Result<()>)
      modifies this
      ensures r == Ok(())
      ensures currentVersion == old(currentVersion) && workingBranch == old(workingBranch)
      ensures autoBackupEnabled == old(autoBackupEnabled)
      ensures old(workingBranch).Some? && old(workingBranch).value in old(versions) ==>
                var b := old(workingBranch).value;
                versions == old(versions)[b := old(versions)[b].(changes := old(versions)[b].changes + changes,
                                                                  timestamp := now)]
      ensures !(old(workingBranch).Some? && old(workingBranch).value in old(versions)) ==>
                versions == old(versions)
    {
      if workingBranch.Some? && workingBranch.value in versions {
        var b := workingBranch.value;
        var v := versions[b];
        versions := versions[b := v.(changes := v.changes + changes, timestamp := now)];
      }
      r := Ok(());
    }

    /** `merge_to_main`: store the branch snapshot under the incremented version and make it current.
      * The branch entry itself stays. */
    method MergeToMain() returns (r: Result<()>)
      modifies this
      ensures r == Ok(())
      ensures autoBackupEnabled == old(autoBackupEnabled)
      ensures old(workingBranch).Some? && old(workingBranch).value in old(versions) ==>
                var next := Render(Bumped(Fields(old(currentVersion))));
                versions == old(versions)[next := old(versions)[old(workingBranch).value]]
                && currentVersion == next && workingBranch == None
      ensures !(old(workingBranch).Some? && old(workingBranch).value in old(versions)) ==>
                unchanged(this)
    {
      if workingBranch.Some? && workingBranch.value in versions {
        var snapshot := versions[workingBranch.value];
        var next := IncrementVersion(currentVersion);
        versions := versions[next := snapshot];
        currentVersion := next;
        workingBranch := None;
      }
      r := Ok(());
    }
  }

  /** A fresh instance has no stored versions, so creating a branch always fails. */
  method FreshInstanceCannotBranch(branchName: string) returns (r: Result<()>)
    ensures r == Err("Current version not found")
  {
    var vc := new ModelVersionControl();
    r := vc.CreateWorkingBranch(branchName);
  }
}
