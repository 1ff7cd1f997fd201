/**
 * When a request has been served, told by what the steps of a run do to the one pass a loop has open at a time.
 * Nothing here looks at a history that the modelled code writes itself.
 */
module Service {
  /** What one step does: it ends the open pass, well or not, and it opens a pass. */
  datatype Turn = Turn(closes: bool, ok: bool, opens: bool)

  /** Nothing happens to the pass strictly between two steps. */
  ghost predicate Undisturbed(turns: seq<Turn>, from: nat, to: nat)
    requires to <= |turns|
  {
    forall k :: from < k < to ==> !turns[k].opens && !turns[k].closes
  }

  /** A pass opened at step `start` ends well at step `done`. */
  ghost predicate Succeeds(turns: seq<Turn>, start: nat, done: nat)
    requires start < |turns| && done < |turns|
  {
    turns[start].opens && Undisturbed(turns, start, done) && turns[done].closes && turns[done].ok
  }

  /** A pass opened at step `start` is still open before step `i`. */
  ghost predicate OpenSince(turns: seq<Turn>, start: nat, i: nat)
    requires start < i <= |turns|
  {
    turns[start].opens && Undisturbed(turns, start, i)
  }

  /** Some pass that started at or after step `r` has succeeded before step `i`. */
  ghost predicate Served(turns: seq<Turn>, r: nat, i: nat)
    requires i <= |turns|
  {
    exists start, done :: r <= start < done < i && Succeeds(turns, start, done)
  }

  /** The pass that is open before step `i` started at or after step `r`. */
  ghost predicate InService(turns: seq<Turn>, r: nat, i: nat)
    requires i <= |turns|
  {
    exists start :: r <= start < i && OpenSince(turns, start, i)
  }

  /** A pass has started at or after step `r`. */
  ghost predicate Begun(turns: seq<Turn>, r: nat, i: nat)
    requires i <= |turns|
  {
    exists start :: r <= start < i && turns[start].opens
  }

  lemma ServedStays(turns: seq<Turn>, r: nat, i: nat)
    requires i < |turns| && Served(turns, r, i)
    ensures Served(turns, r, i + 1)
  {
    var start, done :| r <= start < done < i && Succeeds(turns, start, done);
    assert r <= start < done < i + 1 && Succeeds(turns, start, done);
  }

  lemma OpensServes(turns: seq<Turn>, r: nat, i: nat)
    requires r <= i < |turns| && turns[i].opens
    ensures InService(turns, r, i + 1)
  {
    assert OpenSince(turns, i, i + 1);
  }

  /** What a step makes of a pass in service, unless it opens the next one. */
  lemma ServiceGoesOn(turns: seq<Turn>, r: nat, i: nat)
    requires i < |turns| && InService(turns, r, i)
    ensures turns[i].closes && turns[i].ok ==> Served(turns, r, i + 1)
    ensures !turns[i].closes && !turns[i].opens ==> InService(turns, r, i + 1)
  {
    var start :| r <= start < i && OpenSince(turns, start, i);
    if turns[i].closes && turns[i].ok {
      assert r <= start < i < i + 1 && Succeeds(turns, start, i);
    } else if !turns[i].closes && !turns[i].opens {
      assert r <= start < i + 1 && OpenSince(turns, start, i + 1);
    }
  }
}
