/** The Chain of Responsibility demo of ChainOfResp.kt: support handlers of
    three levels, each holding a fixed, possibly null, next handler. A
    handler deals with a request whose complexity is exactly its own keyword
    and passes anything else on.

    A handler's `nextHandler` is a constructor `val`, so every chain is
    finite and ends in `null`; the inductive datatype below says the same. */
module SupportChain {
  import opened Platform

  datatype Level = Level1 | Level2 | Level3

  /** The only complexity each level accepts. */
  function Keyword(l: Level): string {
    match l
    case Level1 => "basic"
    case Level2 => "complex"
    case Level3 => "highest"
  }

  datatype SupportRequest = SupportRequest(description: string, complexity: string)

  /** A handler and the rest of its chain. */
  datatype Handler = Handler(level: Level, next: Option<Handler>)

  /** The line the handling level prints. */
  function Announcement(l: Level, r: SupportRequest): Line {
    var n := match l case Level1 => "1" case Level2 => "2" case Level3 => "3";
    Out("Level " + n + " Support handling request: " + r.description)
  }

  /** The levels of a chain, from `h` onwards. */
  function Levels(h: Handler): (ls: seq<Level>)
    ensures |ls| > 0 && ls[0] == h.level
    decreases h
  {
    [h.level] + (match h.next case None => [] case Some(n) => Levels(n))
  }

  /** `handleRequest`: the level that handles `r`, or `None` when the request
      falls off the end of the chain. The handler that matches stops the
      request; only one that does not forwards it. */
  function HandleRequest(h: Handler, r: SupportRequest): (handled: Option<Level>)
    ensures handled.Some? ==> Keyword(handled.value) == r.complexity && handled.value in Levels(h)
    ensures handled.None? ==> forall l :: l in Levels(h) ==> Keyword(l) != r.complexity
    decreases h
  {
    if r.complexity == Keyword(h.level) then Some(h.level)
    else match h.next
      case None => None
      case Some(n) => HandleRequest(n, r)
  }

  /** What handling prints: one line from the handling level, or nothing. */
  function Transcript(h: Handler, r: SupportRequest): (lines: seq<Line>)
    ensures |lines| <= 1
  {
    match HandleRequest(h, r)
    case None => []
    case Some(l) => [Announcement(l, r)]
  }

  /** The reference reading of a chain: the first level in the list whose
      keyword is the request's complexity. */
  function FirstMatch(ls: seq<Level>, complexity: string): (m: Option<nat>)
    ensures m.Some? ==> m.value < |ls| && Keyword(ls[m.value]) == complexity
    ensures m.Some? ==> forall j :: 0 <= j < m.value ==> Keyword(ls[j]) != complexity
    ensures m.None? ==> forall j :: 0 <= j < |ls| ==> Keyword(ls[j]) != complexity
  {
    if |ls| == 0 then None
    else if Keyword(ls[0]) == complexity then Some(0)
    else match FirstMatch(ls[1..], complexity)
      case None => None
      case Some(i) => Some(i + 1)
  }

  /** A request is handled by the first handler of the chain whose keyword
      it carries, and by no other; with no such handler it is dropped. */
  lemma {:induction false} HandledByFirstMatch(h: Handler, r: SupportRequest)
    ensures var m := FirstMatch(Levels(h), r.complexity);
            && (m.None? <==> HandleRequest(h, r).None?)
            && (m.Some? ==> HandleRequest(h, r) == Some(Levels(h)[m.value]))
    decreases h
  {
    if r.complexity != Keyword(h.level) {
      match h.next
      case None =>
      case Some(n) =>
        HandledByFirstMatch(n, r);
        assert Levels(h)[1..] == Levels(n);
    }
  }

  /** The chain of the demo driver: level 1, then 2, then 3. */
  const DemoChain: Handler := Handler(Level1, Some(Handler(Level2, Some(Handler(Level3, None)))))

  /** In the demo chain each keyword reaches its own level, and only it:
      level 3 never sees "complex", which level 2 has already taken. Any
      other complexity is dropped silently. */
  lemma DemoRouting(description: string, complexity: string)
    ensures HandleRequest(DemoChain, SupportRequest(description, "basic")) == Some(Level1)
    ensures HandleRequest(DemoChain, SupportRequest(description, "complex")) == Some(Level2)
    ensures HandleRequest(DemoChain, SupportRequest(description, "highest")) == Some(Level3)
    ensures complexity !in {"basic", "complex", "highest"} ==>
              HandleRequest(DemoChain, SupportRequest(description, complexity)) == None
  {
  }
}
