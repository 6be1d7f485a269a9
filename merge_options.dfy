/** The pre-build merge configuration (PreBuildMergeOptions.java): which
    remote ref, in which remote repository, a build merges before it runs. */
module MergeOptions {
  import opened Results
  import opened Text
  import opened GitTool

  class PreBuildMergeOptions {
    /** The remote repository holding the ref; `null` until set. JGit's
        RemoteConfig does not redefine equality, so two remotes are equal
        only when they are the same object. */
    var mergeRemote: RemoteConfig?
    /** The remote ref to merge; `null` (here `None`) until set. */
    var mergeTarget: Option<string>

    /** A fresh object has neither field set, so it asks for no merge. */
    constructor ()
      ensures mergeRemote == null && mergeTarget == None
      ensures !DoMerge()
    {
      mergeRemote := null;
      mergeTarget := None;
    }

    function GetMergeRemote(): RemoteConfig?
      reads this
    {
      mergeRemote
    }

    function GetMergeTarget(): Option<string>
      reads this
    {
      mergeTarget
    }

    /** setMergeRemote: the getter returns the new remote and the target stays. */
    method SetMergeRemote(remote: RemoteConfig?)
      modifies this
      ensures GetMergeRemote() == remote
      ensures GetMergeTarget() == old(GetMergeTarget())
    {
      mergeRemote := remote;
    }

    /** setMergeTarget: the getter returns the new target and the remote stays. */
    method SetMergeTarget(target: Option<string>)
      modifies this
      ensures GetMergeTarget() == target
      ensures GetMergeRemote() == old(GetMergeRemote())
      ensures DoMerge() <==> target.Some?
    {
      mergeTarget := target;
    }

    /** doMerge(): a merge is asked for exactly when a target is set. */
    predicate DoMerge()
      reads this
      ensures DoMerge() <==> GetMergeTarget().Some?
    {
      mergeTarget != None
    }

    /** getRemoteBranchName(): `<remote name>/<target>`, with "null" for an
        unset target; an unset remote is a NullPointerException. */
    function GetRemoteBranchName(): (r: Result<string>)
      reads this
      ensures r.Err? <==> mergeRemote == null
      ensures r.Err? ==> r.error == NullPointer
      ensures r.Ok? ==> |r.value| == |mergeRemote.name| + 1 + |JavaString(mergeTarget)|
      ensures r.Ok? ==> var n := mergeRemote.name;
                        && r.value[..|n|] == n
                        && r.value[|n|] == '/'
                        && r.value[|n| + 1..] == JavaString(mergeTarget)
    {
      if mergeRemote == null then Err(NullPointer)
      else Ok(mergeRemote.name + "/" + JavaString(mergeTarget))
    }

    /** equals(o): the same object, or another PreBuildMergeOptions with the
        same remote object and an equal target; never `null` or an object of
        another class. */
    predicate Equals(o: object?)
      reads this, o
    {
      if this == o then true
      else if o == null || !(o is PreBuildMergeOptions) then false
      else
        var that := o as PreBuildMergeOptions;
        mergeRemote == that.mergeRemote && mergeTarget == that.mergeTarget
    }
  }

  /** A remote name without a slash is recovered from the branch name as the
      part before its first slash, and the target as the rest. */
  lemma RemoteBranchNameSplits(opts: PreBuildMergeOptions)
    requires opts.mergeRemote != null && '/' !in opts.mergeRemote.name
    ensures var r := opts.GetRemoteBranchName();
            && r.Ok?
            && IndexOf(r.value, '/') == |opts.mergeRemote.name|
            && r.value[..IndexOf(r.value, '/')] == opts.mergeRemote.name
            && r.value[IndexOf(r.value, '/') + 1..] == JavaString(opts.mergeTarget)
  {
    var name := opts.mergeRemote.name;
    var s := opts.GetRemoteBranchName().value;
    assert s == name + "/" + JavaString(opts.mergeTarget);
    assert s[..|name|] == name;
    assert s[|name|] == '/';
    assert s[|name| + 1..] == JavaString(opts.mergeTarget);
  }

  /** Two options objects with equal fields name the same remote branch and
      agree on whether to merge. */
  lemma EqualOptionsMergeAlike(a: PreBuildMergeOptions, b: PreBuildMergeOptions)
    requires a.Equals(b)
    ensures a.DoMerge() == b.DoMerge()
    ensures a.GetRemoteBranchName() == b.GetRemoteBranchName()
  {
  }

  /** equals is false for `null` and for objects of other classes, and
      between two options objects it compares the remote by identity and
      the target by value. */
  lemma EqualsCases(a: PreBuildMergeOptions, o: object?)
    ensures o == null ==> !a.Equals(o)
    ensures !(o is PreBuildMergeOptions) ==> !a.Equals(o)
    ensures o is PreBuildMergeOptions ==>
              (a.Equals(o) <==> (var b := o as PreBuildMergeOptions;
                                 a.mergeRemote == b.mergeRemote && a.mergeTarget == b.mergeTarget))
  {
  }

  /** equals is an equivalence on options objects. */
  lemma EqualsIsEquivalence(a: PreBuildMergeOptions, b: PreBuildMergeOptions, c: PreBuildMergeOptions)
    ensures a.Equals(a)
    ensures a.Equals(b) ==> b.Equals(a)
    ensures a.Equals(b) && b.Equals(c) ==> a.Equals(c)
  {
  }
}
