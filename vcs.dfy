/** internal/vcs/vcs.go: the application version, read from the VCS
    settings the Go toolchain stamps into the build information. The build
    information is an input: None when debug.ReadBuildInfo reports none. */
module Vcs {
  import opened Wrappers

  datatype Setting = Setting(key: string, value: string)

  /** The value of the last "vcs.revision" setting, or "" without one. */
  function LastRevision(settings: seq<Setting>): string {
    if settings == [] then ""
    else if settings[|settings| - 1].key == "vcs.revision" then settings[|settings| - 1].value
    else LastRevision(settings[..|settings| - 1])
  }

  /** Whether some "vcs.modified" setting has exactly the value "true". */
  predicate Modified(settings: seq<Setting>) {
    exists i :: 0 <= i < |settings| && settings[i] == Setting("vcs.modified", "true")
  }

  /** Version: the revision, with "-dirty" appended when the tree was modified. */
  method Version(buildInfo: Option<seq<Setting>>) returns (v: string)
    ensures buildInfo.None? ==> v == ""
    ensures buildInfo.Some? && Modified(buildInfo.value) ==> v == LastRevision(buildInfo.value) + "-dirty"
    ensures buildInfo.Some? && !Modified(buildInfo.value) ==> v == LastRevision(buildInfo.value)
  {
    var revision := "";
    var modified := false;
    if buildInfo.Some? {
      var settings := buildInfo.value;
      for i := 0 to |settings|
        invariant revision == LastRevision(settings[..i])
        invariant modified <==> Modified(settings[..i])
      {
        var s := settings[i];
        assert settings[..i + 1][..i] == settings[..i];
        if s.key == "vcs.revision" {
          revision := s.value;
        } else if s.key == "vcs.modified" {
          if s.value == "true" {
            modified := true;
          }
        }
        assert settings[..i + 1][i] == s;
      }
      assert settings[..|settings|] == settings;
    }
    if modified {
      return revision + "-dirty";
    }
    return revision;
  }

  /** LastRevision is the value at the last index holding "vcs.revision". */
  lemma {:induction false} LastRevisionIsLast(settings: seq<Setting>, j: nat)
    requires j < |settings| && settings[j].key == "vcs.revision"
    requires forall k :: j < k < |settings| ==> settings[k].key != "vcs.revision"
    ensures LastRevision(settings) == settings[j].value
    decreases |settings|
  {
    if j < |settings| - 1 {
      var init := settings[..|settings| - 1];
      assert init[j] == settings[j];
      assert forall k :: j < k < |init| ==> init[k] == settings[k];
      LastRevisionIsLast(init, j);
    }
  }

  /** Without any "vcs.revision" setting the revision is empty. */
  lemma {:induction false} NoRevision(settings: seq<Setting>)
    requires forall k :: 0 <= k < |settings| ==> settings[k].key != "vcs.revision"
    ensures LastRevision(settings) == ""
    decreases |settings|
  {
    if settings != [] {
      var init := settings[..|settings| - 1];
      assert forall k :: 0 <= k < |init| ==> init[k] == settings[k];
      NoRevision(init);
    }
  }
}
