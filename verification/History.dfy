/** Whole runs of a round: any sequence of attempted actions by anyone, and the log of those
    that were accepted. */
module History {
  import opened Rules
  import opened Invariants
  import opened Steps

  datatype Attempt = Attempt(player: int, action: Action)

  /** An accepted action and the state it was made in. */
  datatype Entry = Entry(before: State, player: int, action: Action)

  ghost function Play(s: State, attempts: seq<Attempt>): (r: State)
    requires Shaped(s)
    ensures Shaped(r)
  {
    if attempts == [] then s
    else
      var n := |attempts| - 1;
      Apply(Play(s, attempts[..n]), attempts[n].player, attempts[n].action).state
  }

  ghost function Log(s: State, attempts: seq<Attempt>): seq<Entry>
    requires Shaped(s)
  {
    if attempts == [] then []
    else
      var n := |attempts| - 1;
      var before := Play(s, attempts[..n]);
      if Apply(before, attempts[n].player, attempts[n].action).Accepted?
      then Log(s, attempts[..n]) + [Entry(before, attempts[n].player, attempts[n].action)]
      else Log(s, attempts[..n])
  }

  /** The invariant holds in every state any run can reach. */
  lemma {:induction false} RunIsSound(s: State, attempts: seq<Attempt>)
    requires Initial(s)
    ensures Sound(s) && Sound(Play(s, attempts))
  {
    hide Apply, Sound, Initial;
    InitialIsSound(s);
    SoundIsShaped(s);
    if attempts != [] {
      var n := |attempts| - 1;
      RunIsSound(s, attempts[..n]);
      ActionKeepsSound(Play(s, attempts[..n]), attempts[n].player, attempts[n].action);
    }
  }
}
