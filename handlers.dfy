/** Chain of Responsibility: handlers linked through a mutable successor reference, each
    answering the tickets of its own level and forwarding all others.

    The three PHP handler classes differ only in the level they match and the word that
    names them in their message, so one class with a constant `level` stands for all three. */
module Handlers {
  import opened Outcomes
  import opened Levels
  import opened Tickets

  /** The word a handler uses for itself in its message. */
  function Label(level: Level): string
  {
    match level
    case LevelOne => "one"
    case LevelTwo => "two"
    case LevelThree => "three"
  }

  const MessageHead := "this ticket is being handling by handler "
  const MessageMiddle := " and ticket level is "

  /** The message of the handler of level `handler` for a ticket of level `ticket`. */
  function Message(handler: Level, ticket: Level): string
  {
    MessageHead + Label(handler) + MessageMiddle + Value(ticket)
  }

  /** A message is the fixed head, the handler's word, the fixed middle and the ticket level's
      backing string, in that order and nothing else. */
  lemma MessageLayout(handler: Level, ticket: Level)
    ensures var m := Message(handler, ticket);
      |m| == |MessageHead| + |Label(handler)| + |MessageMiddle| + |Value(ticket)| &&
      m[..|MessageHead|] == MessageHead &&
      m[|MessageHead|..|MessageHead| + |Label(handler)|] == Label(handler) &&
      m[|MessageHead| + |Label(handler)|..|m| - |Value(ticket)|] == MessageMiddle &&
      m[|m| - |Value(ticket)|..] == Value(ticket)
  {
    var head := MessageHead + Label(handler);
    var body := head + MessageMiddle;
    assert body[..|MessageHead|] == MessageHead;
    assert Message(handler, ticket) == body + Value(ticket);
  }

  /** Different handlers answer with different messages, so a message names its handler. */
  lemma MessageInjective(a: Level, b: Level)
    requires Message(a, a) == Message(b, b)
    ensures a == b
  {
    var m := Message(a, a);
    var k := |MessageHead|;
    MessageLayout(a, a);
    MessageLayout(b, b);
    assert Label(a)[0] == m[k] == Label(b)[0];
    assert Label(a)[1] == m[k + 1] == Label(b)[1];
  }

  /** Reference definition of routing over the sequence of handler levels, head first: the
      first handler whose level equals the ticket's answers; past the end there is no answer. */
  function Route(levels: seq<Level>, ticket: Level): (r: Option<string>)
    ensures r.Some? ==> r.value == Message(ticket, ticket)
    ensures r.None? <==> ticket !in levels
  {
    if levels == [] then None
    else if Value(ticket) == Value(levels[0]) then
      ValueInjective(ticket, levels[0]);
      Some(Message(levels[0], ticket))
    else
      ValueInjective(ticket, levels[0]);
      Route(levels[1..], ticket)
  }

  /** The handler at index `i` answers when it is the first whose level is the ticket's; this
      follows from Route's contract. */
  lemma RouteFirstMatch(levels: seq<Level>, ticket: Level, i: nat)
    requires i < |levels| && levels[i] == ticket
    requires forall j :: 0 <= j < i ==> levels[j] != ticket
    ensures Route(levels, ticket) == Some(Message(levels[i], ticket))
  {
  }

  /** The levels of a sequence of handlers, in order. */
  function LevelsOf(path: seq<Handler>): (levels: seq<Level>)
    ensures |levels| == |path|
    ensures forall i :: 0 <= i < |path| ==> levels[i] == path[i].level
  {
    seq(|path|, i requires 0 <= i < |path| => path[i].level)
  }

  /** `path` lists handlers reached from `head` by following successor links. */
  ghost predicate IsPathFrom(head: Handler, path: seq<Handler>)
    reads path
  {
    |path| > 0 && path[0] == head &&
    forall i :: 0 <= i < |path| - 1 ==> path[i].next == path[i + 1]
  }

  /** `path` is the walk a ticket of level `ticket` takes from `head`: it follows the successor
      links up to a handler of that level or to one without a successor. Such a finite walk
      exists exactly when handling terminates; PHP never checks for it. */
  ghost predicate Reaches(head: Handler, path: seq<Handler>, ticket: Level)
    reads path
  {
    IsPathFrom(head, path) &&
    (path[|path| - 1].level == ticket || path[|path| - 1].next == null)
  }

  class Handler {
    const level: Level
    var next: Handler?

    /** A handler of the given level, not yet linked to a successor. */
    constructor (level: Level)
      ensures this.level == level && next == null
    {
      this.level := level;
      next := null;
    }

    /** Records `next` as the successor, replacing any earlier one; nothing else changes. */
    method SetNext(next: Handler)
      modifies this`next
      ensures this.next == next
    {
      this.next := next;
    }

    /** Answers the ticket when its level is this handler's, and otherwise forwards it. `path`
        witnesses that the walk stops; the answer is the reference walk over its levels. */
    function Handle(ticket: Ticket, ghost path: seq<Handler>): (r: Option<string>)
      requires Reaches(this, path, ticket.level)
      reads path, ticket
      decreases |path|, 1
      ensures r == Route(LevelsOf(path), ticket.level)
    {
      if Value(ticket.GetLevel()) == Value(level) then
        Some(Message(level, ticket.GetLevel()))
      else
        ValueInjective(ticket.level, level);
        Next(ticket, path)
    }

    /** Hands the same ticket to the successor; with no successor the ticket falls off the end
        and the answer is PHP's `null`. `path` is this handler followed by the successor's walk. */
    function Next(ticket: Ticket, ghost path: seq<Handler>): (r: Option<string>)
      requires IsPathFrom(this, path)
      requires next != null ==> |path| > 1 && Reaches(path[1], path[1..], ticket.level)
      reads path, ticket
      decreases |path|, 0
      ensures next == null ==> r == None
      ensures r == Route(LevelsOf(path)[1..], ticket.level)
    {
      if next == null then None
      else
        assert LevelsOf(path)[1..] == LevelsOf(path[1..]);
        next.Handle(ticket, path[1..])
    }
  }

  /** Walks from the same handler agree wherever both are defined: the links decide them. */
  lemma {:induction false} PathsAgree(head: Handler, p1: seq<Handler>, p2: seq<Handler>, i: nat)
    requires IsPathFrom(head, p1) && IsPathFrom(head, p2)
    requires i < |p1| && i < |p2|
    ensures p1[i] == p2[i]
  {
    if i > 0 {
      PathsAgree(head, p1, p2, i - 1);
      assert p1[i - 1].next == p1[i] && p2[i - 1].next == p2[i];
    }
  }

  /** The answer does not depend on which walk witnesses termination: it is determined by the
      handlers and their links alone. */
  lemma HandleIgnoresWitness(head: Handler, ticket: Ticket, p1: seq<Handler>, p2: seq<Handler>)
    requires Reaches(head, p1, ticket.level) && Reaches(head, p2, ticket.level)
    ensures head.Handle(ticket, p1) == head.Handle(ticket, p2)
  {
    var t := ticket.level;
    if t in LevelsOf(p1) {
      HasMatchingOnBoth(head, p1, p2, t);
    } else if t in LevelsOf(p2) {
      HasMatchingOnBoth(head, p2, p1, t);
    }
  }

  /** If the walk `p1` meets a handler of level `t`, so does every other walk `p2` of a ticket of
      that level: `p2` cannot stop before that handler. */
  lemma HasMatchingOnBoth(head: Handler, p1: seq<Handler>, p2: seq<Handler>, t: Level)
    requires IsPathFrom(head, p1) && Reaches(head, p2, t) && t in LevelsOf(p1)
    ensures t in LevelsOf(p2)
  {
    var k :| 0 <= k < |p1| && p1[k].level == t;
    if |p2| <= k {
      var last := |p2| - 1;
      PathsAgree(head, p1, p2, last);
      assert p1[last].next == p1[last + 1];
      assert p2[last].level == t;
      assert LevelsOf(p2)[last] == t;
    } else {
      PathsAgree(head, p1, p2, k);
      assert LevelsOf(p2)[k] == t;
    }
  }

  /** A ticket's walk ends at the first handler of its level: the handlers after that one are
      never reached, whatever their links, even if they close a cycle. */
  lemma WalkStopsAtFirstMatch(head: Handler, ticket: Ticket, path: seq<Handler>, k: nat)
    requires IsPathFrom(head, path) && k < |path| && path[k].level == ticket.level
    requires forall j :: 0 <= j < k ==> path[j].level != ticket.level
    ensures Reaches(head, path[..k + 1], ticket.level)
    ensures head.Handle(ticket, path[..k + 1]) == Some(Message(path[k].level, ticket.level))
  {
    assert LevelsOf(path[..k + 1])[k] == ticket.level;
    RouteFirstMatch(LevelsOf(path[..k + 1]), ticket.level, k);
  }

  /** On a cycle of handlers none of which has the ticket's level, no walk stops: `SetNext` lets
      such a cycle be built, and handling that ticket on it never returns. */
  lemma UnmatchedCycleNeverStops(head: Handler, cycle: seq<Handler>, t: Level, path: seq<Handler>)
    requires IsPathFrom(head, cycle) && cycle[|cycle| - 1].next == head
    requires forall h :: h in cycle ==> h.level != t
    ensures !Reaches(head, path, t)
  {
    if IsPathFrom(head, path) {
      WalkStaysOnCycle(head, cycle, path, |path| - 1);
      var last := path[|path| - 1];
      var j :| 0 <= j < |cycle| && cycle[j] == last;
      SuccessorOnCycle(head, cycle, j);
    }
  }

  /** The successor of a handler on a closed cycle is a handler on that cycle. */
  lemma SuccessorOnCycle(head: Handler, cycle: seq<Handler>, j: nat)
    requires IsPathFrom(head, cycle) && cycle[|cycle| - 1].next == head
    requires j < |cycle|
    ensures cycle[j].next != null && cycle[j].next in cycle
  {
    if j < |cycle| - 1 {
      assert cycle[j].next == cycle[j + 1];
    } else {
      assert cycle[j].next == cycle[0];
    }
  }

  /** Every step of a walk from the head of a closed cycle stays on the cycle. */
  lemma {:induction false} WalkStaysOnCycle(head: Handler, cycle: seq<Handler>, path: seq<Handler>, i: nat)
    requires IsPathFrom(head, cycle) && cycle[|cycle| - 1].next == head
    requires IsPathFrom(head, path) && i < |path|
    ensures path[i] in cycle
  {
    if i == 0 {
      assert path[0] == cycle[0];
    } else {
      WalkStaysOnCycle(head, cycle, path, i - 1);
      var j :| 0 <= j < |cycle| && cycle[j] == path[i - 1];
      SuccessorOnCycle(head, cycle, j);
      assert path[i] == path[i - 1].next;
    }
  }

  /** A walk that passes handlers lacking the ticket's level and then enters a closed cycle
      also lacking it never stops: handling recurses forever whether or not it starts on the
      cycle. */
  lemma UnmatchedLoopAheadNeverStops(head: Handler, prefix: seq<Handler>, cycle: seq<Handler>,
                                     t: Level, path: seq<Handler>)
    requires IsPathFrom(head, prefix) && forall h :: h in prefix ==> h.level != t
    requires |cycle| > 0 && prefix[|prefix| - 1].next == cycle[0]
    requires IsPathFrom(cycle[0], cycle) && cycle[|cycle| - 1].next == cycle[0]
    requires forall h :: h in cycle ==> h.level != t
    ensures !Reaches(head, path, t)
  {
    if IsPathFrom(head, path) {
      var n := |prefix|;
      if |path| <= n {
        var k := |path| - 1;
        PathsAgree(head, prefix, path, k);
        assert path[k] in prefix;
        if k < n - 1 {
          assert prefix[k].next == prefix[k + 1];
        }
      } else {
        PathsAgree(head, prefix, path, n - 1);
        var rest := path[n..];
        assert rest[0] == path[n - 1].next == cycle[0];
        assert IsPathFrom(cycle[0], rest) by {
          forall i | 0 <= i < |rest| - 1 ensures rest[i].next == rest[i + 1] {
            assert rest[i] == path[n + i] && rest[i + 1] == path[n + i + 1];
          }
        }
        UnmatchedCycleNeverStops(cycle[0], cycle, t, rest);
        assert rest[|rest| - 1] == path[|path| - 1];
      }
    }
  }

  /** The chain assembled by the demonstration script: handler one, then two, then three. */
  method DemoChain() returns (head: Handler, ghost chain: seq<Handler>)
    ensures head.level == LevelOne && IsPathFrom(head, chain)
    ensures LevelsOf(chain) == [LevelOne, LevelTwo, LevelThree] && chain[2].next == null
  {
    var one := new Handler(LevelOne);
    var two := new Handler(LevelTwo);
    var three := new Handler(LevelThree);
    one.SetNext(two);
    two.SetNext(three);
    head := one;
    chain := [one, two, three];
  }

  /** On the demonstration chain every level is answered by the handler of that level. */
  lemma DemoChainAnswersEveryLevel(ticket: Level)
    ensures Route([LevelOne, LevelTwo, LevelThree], ticket) == Some(Message(ticket, ticket))
  {
  }

  /** The text of handler one's answer to a level-one ticket, spelled out. */
  lemma LevelOneMessage()
    ensures Message(LevelOne, LevelOne)
         == "this ticket is being handling by handler one and ticket level is LevelOne"
  {
  }

  /** The text of handler two's answer to a level-two ticket, spelled out. */
  lemma LevelTwoMessage()
    ensures Message(LevelTwo, LevelTwo)
         == "this ticket is being handling by handler two and ticket level is LevelTwo"
  {
  }

  /** The text of handler three's answer to a level-three ticket, spelled out. */
  lemma LevelThreeMessage()
    ensures Message(LevelThree, LevelThree)
         == "this ticket is being handling by handler three and ticket level is LevelThree"
  {
  }

  /** The demonstration script: a level-three ticket handed to the head of the demo chain. */
  method DemoLevelThree() returns (answer: Option<string>)
    ensures answer == Some("this ticket is being handling by handler three and ticket level is LevelThree")
  {
    var ticket := new Ticket("ticket_level_three", "ticket_level_three_content", LevelThree);
    var head;
    ghost var chain;
    head, chain := DemoChain();
    answer := head.Handle(ticket, chain);
    DemoChainAnswersEveryLevel(LevelThree);
    LevelThreeMessage();
  }

  /** A handler with no successor answers `null` for every ticket it does not match. */
  method LastLinkDropsOthers(level: Level, ticketLevel: Level) returns (answer: Option<string>)
    ensures answer == if ticketLevel == level then Some(Message(level, level)) else None
  {
    var h := new Handler(level);
    var ticket := new Ticket("", "", ticketLevel);
    answer := h.Handle(ticket, [h]);
    ValueInjective(level, ticketLevel);
  }

  /** Calling `SetNext` twice keeps only the second successor: the chain is rerouted. */
  method RewireReplacesSuccessor(ticketLevel: Level) returns (answer: Option<string>)
    ensures answer == if ticketLevel == LevelOne || ticketLevel == LevelThree
                      then Some(Message(ticketLevel, ticketLevel)) else None
  {
    var one := new Handler(LevelOne);
    var two := new Handler(LevelTwo);
    var three := new Handler(LevelThree);
    one.SetNext(two);
    one.SetNext(three);
    var ticket := new Ticket("", "", ticketLevel);
    answer := one.Handle(ticket, [one, three]);
  }

  /** Two handlers linked to each other: a level-two ticket is still answered, by handler two,
      while no walk exists for a level-three ticket, whose handling would never return. */
  method CycleAnswersOnlyMatched() returns (answer: Option<string>, head: Handler)
    ensures answer == Some(Message(LevelTwo, LevelTwo))
    ensures head.level == LevelOne && head.next != null && head.next.next == head
    ensures forall path: seq<Handler> :: !Reaches(head, path, LevelThree)
  {
    var one := new Handler(LevelOne);
    var two := new Handler(LevelTwo);
    one.SetNext(two);
    two.SetNext(one);
    var ticket := new Ticket("", "", LevelTwo);
    answer := one.Handle(ticket, [one, two]);
    forall path: seq<Handler> ensures !Reaches(one, path, LevelThree) {
      UnmatchedCycleNeverStops(one, [one, two], LevelThree, path);
    }
    head := one;
  }

  /** A level-three ticket on handler one, whose successor two is linked to itself: the walk
      passes one and then circles two forever. */
  method LoopAheadNeverAnswers() returns (head: Handler)
    ensures head.level == LevelOne && head.next != null && head.next.next == head.next
    ensures forall path: seq<Handler> :: !Reaches(head, path, LevelThree)
  {
    var one := new Handler(LevelOne);
    var two := new Handler(LevelTwo);
    one.SetNext(two);
    two.SetNext(two);
    forall path: seq<Handler> ensures !Reaches(one, path, LevelThree) {
      UnmatchedLoopAheadNeverStops(one, [one], [two], LevelThree, path);
    }
    head := one;
  }
}
