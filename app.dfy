/**
  The submit handler and the schedule generator as the program runs them: the player
  records' counts live in an array that the loops decrement in place, the pool and the
  drawn players are lists of roster positions that the drawing loop shrinks and grows.
  Each method is proved to compute exactly what the functions of `ScheduleSpec` describe,
  so every lemma proved there holds for what these methods return.
*/
module App {
  import opened Seqs
  import opened ScheduleSpec

  /** What a press of the generate button leads to. */
  datatype Outcome =
    | Rejected(sumGames: int, totalSlots: int)  // the alert naming both totals; nothing is generated
    | Scheduled(schedule: seq<Game>)            // the schedule handed to the display

  /**
    The schedule generator (app.js:39-65), with the oracle `random` in place of the
    random number source.
  */
  method GenerateSchedule(names: seq<string>, games: seq<int>, numGames: int, random: nat -> nat)
    returns (schedule: seq<Game>)
    ensures schedule == Generate(names, games, numGames, random).schedule
    ensures |schedule| <= Max(numGames, 0)
    ensures forall k :: 0 <= k < |schedule| ==> schedule[k].game == k + 1
  {
    // one count per player, taken from the count list position by position
    var remaining := new int[|names|](i => if 0 <= i < |games| then games[i] else 0);
    assert remaining[..] == Quotas(names, games);
    ghost var lineups: seq<Lineup> := [];
    var draws: nat := 0;
    schedule := [];
    var g: nat := 0;
    while g < numGames
      invariant remaining.Length == |names|
      invariant Loop(names, numGames, random, g, Run(schedule, lineups, remaining[..], draws))
             == Generate(names, games, numGames, random)
      decreases numGames - g
    {
      var available := Eligible(remaining[..]);
      if |available| < 4 {
        break;
      }
      ghost var before := remaining[..];
      ghost var first := draws;
      var selected;
      selected, draws := DrawPlayers(available, random, draws);
      assert |selected| == 4;
      DrawKeepsPlayers(available, [], random, first);
      assert forall k :: 0 <= k < |selected| ==> selected[k] in available;
      TakeGames(remaining, selected);
      assert remaining[..] == DecrementAll(before, selected);
      ghost var st := Run(schedule, lineups, before, first);
      schedule := schedule + [GameOf(names, g + 1, selected)];
      lineups := lineups + [selected];
      assert Play(names, random, g, st) == Run(schedule, lineups, remaining[..], draws);
      g := g + 1;
    }
    ScheduleShape(names, games, numGames, random);
  }

  /**
    The drawing loop: move the pool entry the oracle points at to the drawn players until
    four are drawn or the pool is empty.
  */
  method DrawPlayers(pool: seq<nat>, random: nat -> nat, draws: nat) returns (selected: seq<nat>, next: nat)
    ensures var r := Draw(pool, [], random, draws); selected == r.selected && next == r.next
  {
    var available := pool;
    selected := [];
    next := draws;
    while |selected| < 4 && |available| > 0
      invariant Draw(available, selected, random, next) == Draw(pool, [], random, draws)
      decreases 4 - |selected|
    {
      var idx := random(next) % |available|;
      selected := selected + [available[idx]];
      available := available[..idx] + available[idx + 1..];
      next := next + 1;
    }
  }

  /** Take one game from each drawn player's count in place, in drawing order (app.js:58). */
  method TakeGames(remaining: array<int>, selected: seq<nat>)
    requires forall k :: 0 <= k < |selected| ==> selected[k] < remaining.Length
    modifies remaining
    ensures remaining[..] == DecrementAll(old(remaining[..]), selected)
  {
    ghost var before := remaining[..];
    for j := 0 to |selected|
      invariant remaining[..] == DecrementAll(before, selected[..j])
    {
      assert selected[..j + 1] == selected[..j] + [selected[j]];
      remaining[selected[j]] := remaining[selected[j]] - 1;
    }
    assert selected[..|selected|] == selected;
  }

  /**
    The submit handler once the form has been read: reject when the requested games do
    not fill the `numGames * 4` slots exactly, and otherwise generate the schedule.
  */
  method Submit(names: seq<string>, games: seq<int>, numGames: int, random: nat -> nat)
    returns (outcome: Outcome)
    ensures outcome.Rejected? <==> Sum(games) != numGames * 4
    ensures outcome.Rejected? ==> outcome.sumGames == Sum(games) && outcome.totalSlots == numGames * 4
    ensures outcome.Scheduled? ==> outcome.schedule == Generate(names, games, numGames, random).schedule
  {
    var totalSlots := numGames * 4;
    var sumGames := Sum(games);
    if sumGames != totalSlots {
      return Rejected(sumGames, totalSlots);
    }
    var schedule := GenerateSchedule(names, games, numGames, random);
    return Scheduled(schedule);
  }
}
