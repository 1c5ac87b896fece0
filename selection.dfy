/**
 * The file-selection state machine as values. The application keeps two
 * slots, the paths of file 1 and file 2, and the enabled flag of the
 * "Analyze" button. Two handlers change them: choosing files refills both
 * slots from a list of paths, and the remove button of a slot clears it and
 * refills the slots from what is left. A path counts as present when Python
 * would find it true, that is, when it is set and not the empty string.
 */
module FileSelection {
  import opened Wrappers

  /** The two slots and the flag of the Analyze button. */
  datatype Selection = Selection(file1: Option<string>, file2: Option<string>, analyzeEnabled: bool)
  {
    /** Slot 2 is never set without slot 1, and the button is enabled exactly when slot 2 is set. */
    predicate Consistent() {
      (file2.Some? ==> file1.Some?) && (analyzeEnabled <==> file2.Some?)
    }

    /** Consistent, and no slot holds the empty string (which Python treats as no file). */
    predicate WellFormed() {
      Consistent() && (file1.Some? ==> file1.value != "") && (file2.Some? ==> file2.value != "")
    }

    /** The guard of the analysis: both slots hold a path Python finds true. */
    predicate CanAnalyze()
      ensures WellFormed() ==> (CanAnalyze() <==> analyzeEnabled)
    {
      Truthy(file1) && Truthy(file2)
    }

    /** The number of slots holding a path Python finds true. */
    function Count(): (n: nat)
      ensures n <= 2
      ensures n == 2 <==> CanAnalyze()
      ensures n == 0 <==> !Truthy(file1) && !Truthy(file2)
    {
      (if Truthy(file1) then 1 else 0) + (if Truthy(file2) then 1 else 0)
    }
  }

  /** Python's truth value of a slot: `None` and `""` are false. */
  predicate Truthy(slot: Option<string>) {
    slot.Some? && slot.value != ""
  }

  /** Every path in the list is a non-empty string, as a file dialog returns them. */
  predicate NonEmptyPaths(paths: seq<string>) {
    forall i :: 0 <= i < |paths| ==> paths[i] != ""
  }

  /** The state at start-up: no file chosen, the Analyze button disabled. */
  const Initial: Selection := Selection(None, None, false)

  /**
   * The selection after the file list is redisplayed from `paths`: both
   * slots reset, then filled from the first two paths, the rest ignored; the
   * button enabled when there are at least two paths.
   */
  function Display(paths: seq<string>): (s: Selection)
    ensures s.Consistent()
    ensures s.file1.Some? <==> |paths| >= 1
    ensures s.file2.Some? <==> |paths| >= 2
    ensures s.file1.Some? ==> s.file1.value == paths[0]
    ensures s.file2.Some? ==> s.file2.value == paths[1]
    ensures s.analyzeEnabled <==> |paths| >= 2
    ensures NonEmptyPaths(paths) ==>
      s.WellFormed() && s.Count() == (if |paths| < 2 then |paths| else 2) &&
      (s.analyzeEnabled <==> s.CanAnalyze())
  {
    var file1: Option<string> := if |paths| >= 1 then Some(paths[0]) else None;
    var file2: Option<string> := if |paths| >= 2 then Some(paths[1]) else None;
    Selection(file1, file2, |paths| >= 2)
  }

  /** The list the remove handler rebuilds: the slots Python finds true, slot 1 first. */
  function Compact(file1: Option<string>, file2: Option<string>): (paths: seq<string>)
    ensures paths == Kept(file1) + Kept(file2)
    ensures NonEmptyPaths(paths)
    ensures |paths| <= 2
  {
    if Truthy(file1) then
      if Truthy(file2) then [file1.value, file2.value] else [file1.value]
    else if Truthy(file2) then [file2.value]
    else []
  }

  /** A slot as a list: its path if Python finds it true, nothing otherwise. */
  function Kept(slot: Option<string>): seq<string> {
    if Truthy(slot) then [slot.value] else []
  }

  /** The slot the remove button of file `n` targets: 1 targets slot 1, any other number slot 2. */
  function Target(s: Selection, n: int): Option<string> {
    if n == 1 then s.file1 else s.file2
  }

  /**
   * The selection after the remove button of file `n` is pressed: the
   * targeted slot is cleared and the remaining paths are redisplayed.
   */
  function Remove(s: Selection, n: int): (r: Selection)
    ensures r.WellFormed()
    ensures !r.analyzeEnabled
    ensures r.Count() + (if Truthy(Target(s, n)) then 1 else 0) == s.Count()
    ensures n == 1 ==> r.file1 == (if Truthy(s.file2) then s.file2 else None) && r.file2 == None
    ensures n != 1 ==> r.file1 == (if Truthy(s.file1) then s.file1 else None) && r.file2 == None
    ensures s.WellFormed() && !Truthy(Target(s, n)) ==> r == s
  {
    var cleared := if n == 1 then s.(file1 := None) else s.(file2 := None);
    Display(Compact(cleared.file1, cleared.file2))
  }

  /** The first `n` paths, or all of them when there are fewer (Python's `paths[:n]`). */
  function Take(paths: seq<string>, n: nat): (r: seq<string>)
    ensures |r| == (if |paths| < n then |paths| else n)
    ensures r == paths[..|r|]
  {
    if |paths| <= n then paths else paths[..n]
  }

  /** Redisplaying only the first two or more paths gives the same selection as redisplaying all of them. */
  lemma DisplayIgnoresExtraPaths(paths: seq<string>, n: nat)
    requires n >= 2
    ensures Display(Take(paths, n)) == Display(paths)
  {
  }

  /** What the user can do to the selection: pick files in the dialog, or press a slot's remove button. */
  datatype Event = Chose(paths: seq<string>) | RemovePressed(n: int)

  /** One event; a dialog that was cancelled (no path chosen) leaves the selection alone. */
  function Step(s: Selection, e: Event): (r: Selection)
    ensures e.Chose? && e.paths == [] ==> r == s
    ensures e.Chose? && e.paths != [] ==> r.file1 == Some(e.paths[0]) && (r.analyzeEnabled <==> |e.paths| >= 2)
    ensures e.RemovePressed? ==> !r.analyzeEnabled && r.Count() <= s.Count()
    ensures s.Consistent() ==> r.Consistent()
  {
    match e
    case Chose(paths) => if paths == [] then s else Display(paths)
    case RemovePressed(n) => Remove(s, n)
  }

  /** The selection after a sequence of events, first event first. */
  function Run(s: Selection, events: seq<Event>): Selection
    decreases |events|
  {
    if events == [] then s else Run(Step(s, events[0]), events[1..])
  }

  /** Every dialog in the sequence returned only non-empty paths. */
  predicate FromDialog(events: seq<Event>) {
    forall i :: 0 <= i < |events| && events[i].Chose? ==> NonEmptyPaths(events[i].paths)
  }

  /** Whatever paths are chosen, slot 2 never holds a path while slot 1 is empty, and the button follows slot 2. */
  lemma {:induction false} RunKeepsConsistent(s: Selection, events: seq<Event>)
    requires s.Consistent()
    ensures Run(s, events).Consistent()
    decreases |events|
  {
    if events != [] {
      RunKeepsConsistent(Step(s, events[0]), events[1..]);
    }
  }

  /** With paths from a dialog, every state stays well formed. */
  lemma {:induction false} RunKeepsWellFormed(s: Selection, events: seq<Event>)
    requires s.WellFormed() && FromDialog(events)
    ensures Run(s, events).WellFormed()
    decreases |events|
  {
    if events != [] {
      assert FromDialog(events[1..]) by {
        forall i | 0 <= i < |events[1..]| && events[1..][i].Chose?
          ensures NonEmptyPaths(events[1..][i].paths)
        {
          assert events[1..][i] == events[i + 1];
        }
      }
      RunKeepsWellFormed(Step(s, events[0]), events[1..]);
    }
  }

  /**
   * From start-up, after any sequence of choices and removals with paths
   * from a dialog, the Analyze button is enabled exactly when the analysis
   * guard lets it run, and slot 2 is never filled while slot 1 is empty.
   */
  lemma ReachableButtonMatchesGuard(events: seq<Event>)
    requires FromDialog(events)
    ensures Run(Initial, events).analyzeEnabled <==> Run(Initial, events).CanAnalyze()
    ensures Run(Initial, events).file2.Some? ==> Run(Initial, events).file1.Some?
  {
    RunKeepsWellFormed(Initial, events);
  }

  /** Removing a file never increases the number of chosen files. */
  lemma RemoveNeverAdds(s: Selection, n: int)
    ensures Remove(s, n).Count() <= s.Count()
  {
  }

  /** Removing file 1 of two moves file 2 into slot 1. */
  lemma RemoveFirstShiftsSecond(s: Selection)
    requires s.WellFormed() && s.CanAnalyze()
    ensures Remove(s, 1) == Selection(s.file2, None, false)
  {
  }
}
