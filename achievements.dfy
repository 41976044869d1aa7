/** The achievement list of the frontend and its one-way unlock
    (frontend/src/hooks/useAchievements.ts). */
module Achievements {
  import opened Objects
  import opened Sequences

  datatype Icon = Rocket | UploadIcon | Brain | MessageSquare | PenTool | Trophy | Coffee

  datatype Achievement = Achievement(id: string, title: string, description: string, icon: Icon, unlocked: bool)

  /** `initialAchievements`. */
  function InitialAchievements(): seq<Achievement>
  {
    [ Achievement("first-visit", "Welcome Explorer!", "Started your learning journey", Rocket, false),
      Achievement("first-upload", "Content Creator", "Uploaded your first video or audio file", UploadIcon, false),
      Achievement("first-summary", "Knowledge Seeker", "Generated your first video summary", Brain, false),
      Achievement("first-chat", "Conversation Starter", "Started your first interactive chat", MessageSquare, false),
      Achievement("first-note", "Note Taker", "Created your first note", PenTool, false),
      Achievement("quiz-complete", "Quiz Master", "Completed your first quiz", Trophy, false),
      Achievement("early-bird", "Early Bird", "Visited during launch week", Coffee, false) ]
  }

  /** Seven achievements, all locked, no id twice. */
  lemma InitialAchievementsWellFormed()
    ensures |InitialAchievements()| == 7
    ensures forall a :: a in InitialAchievements() ==> !a.unlocked
    ensures forall i, j :: 0 <= i < j < 7 ==> InitialAchievements()[i].id != InitialAchievements()[j].id
  {
    var l := InitialAchievements();
    assert l[0].id[6] == 'v' && l[1].id[6] == 'u' && l[2].id[6] == 's' && l[3].id[6] == 'c' && l[4].id[6] == 'n';
    assert l[5].id[0] == 'q' && l[6].id[0] == 'e';
  }

  /** `list.find(a => a.id === id)`: the first entry with that id. */
  function Find(list: seq<Achievement>, id: string): (r: Option<Achievement>)
    ensures r.Some? ==> r.value in list && r.value.id == id
    ensures r.Some? ==> exists i :: 0 <= i < |list| && list[i] == r.value && forall j :: 0 <= j < i ==> list[j].id != id
    ensures r.None? <==> forall a :: a in list ==> a.id != id
  {
    if list == [] then None
    else if list[0].id == id then Some(list[0])
    else Find(list[1..], id)
  }

  /** `a.id === id ? { ...a, unlocked: true } : a` */
  function Flip(id: string): Achievement -> Achievement
  {
    (a: Achievement) => if a.id == id then a.(unlocked := true) else a
  }

  /** The updater passed to `setAchievements`: the new list, and the value
      given to `setLatestAchievement` when it is called. */
  function Unlock(prev: seq<Achievement>, id: string): (seq<Achievement>, Option<Achievement>)
  {
    var found := Find(prev, id);
    if found.Some? && !found.value.unlocked then
      (Map(prev, Flip(id)), Some(found.value.(unlocked := true)))
    else (prev, None)
  }

  /** Unlocking a known, locked id sets `unlocked` on the entries with that
      id and leaves every other entry and the length as they were. */
  lemma UnlockFlipsOnlyThatId(prev: seq<Achievement>, id: string)
    requires Find(prev, id).Some? && !Find(prev, id).value.unlocked
    ensures var next := Unlock(prev, id).0;
      && |next| == |prev|
      && forall i :: 0 <= i < |prev| ==>
           next[i] == if prev[i].id == id then prev[i].(unlocked := true) else prev[i]
  {
  }

  /** An unknown id, or one whose first entry is already unlocked, changes
      nothing and records no latest achievement. */
  lemma UnlockNoChange(prev: seq<Achievement>, id: string)
    requires Find(prev, id).None? || Find(prev, id).value.unlocked
    ensures Unlock(prev, id) == (prev, None)
  {
  }

  /** Flags only go from locked to unlocked; ids and texts never change. */
  lemma UnlockMonotone(prev: seq<Achievement>, id: string)
    ensures var next := Unlock(prev, id).0;
      && |next| == |prev|
      && forall i :: 0 <= i < |prev| ==>
           && (prev[i].unlocked ==> next[i].unlocked)
           && next[i].(unlocked := prev[i].unlocked) == prev[i]
  {
  }

  /** The first entry with an id in the list returned by `Map(_, Flip(id))`
      is unlocked. */
  lemma {:induction false} FindAfterFlip(prev: seq<Achievement>, id: string)
    requires Find(prev, id).Some?
    ensures Find(Map(prev, Flip(id)), id) == Some(Find(prev, id).value.(unlocked := true))
  {
    var m := Map(prev, Flip(id));
    if prev[0].id != id {
      assert m[1..] == Map(prev[1..], Flip(id));
      FindAfterFlip(prev[1..], id);
    }
  }

  /** Unlocking twice is unlocking once; the second call records nothing. */
  lemma UnlockIdempotent(prev: seq<Achievement>, id: string)
    ensures Unlock(Unlock(prev, id).0, id) == (Unlock(prev, id).0, None)
  {
    var found := Find(prev, id);
    if found.Some? && !found.value.unlocked {
      FindAfterFlip(prev, id);
    }
  }

  /** A latest achievement is recorded exactly when the list changes, and
      it is the unlocked form of the entry for that id. */
  lemma LatestIffChanged(prev: seq<Achievement>, id: string)
    ensures var (next, latest) := Unlock(prev, id);
      && (latest.Some? <==> next != prev)
      && (latest.Some? ==> latest.value.unlocked && latest.value.id == id && latest.value in next)
  {
    var found := Find(prev, id);
    if found.Some? && !found.value.unlocked {
      var i :| 0 <= i < |prev| && prev[i] == found.value;
      var next := Unlock(prev, id).0;
      assert next[i] == found.value.(unlocked := true);
      assert next[i] != prev[i];
    }
  }

  /** The hook's two state cells. */
  class AchievementStore {
    var achievements: seq<Achievement>
    var latest: Option<Achievement>

    /** The initial state when nothing was saved before. */
    constructor ()
      ensures achievements == InitialAchievements() && latest == None
    {
      achievements := InitialAchievements();
      latest := None;
    }

    /** `unlockAchievement(id)`: the list takes the updater's result and the
        latest achievement is replaced only when the updater records one. */
    method UnlockAchievement(id: string)
      modifies this
      ensures achievements == Unlock(old(achievements), id).0
      ensures latest == if Unlock(old(achievements), id).1.Some? then Unlock(old(achievements), id).1 else old(latest)
    {
      var found := Find(achievements, id);
      if found.Some? && !found.value.unlocked {
        achievements := Map(achievements, Flip(id));
        latest := Some(found.value.(unlocked := true));
      }
    }
  }
}
