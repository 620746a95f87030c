/** A reading's whole way: from the sensor queue through the firmware's books and
    the wire, over any cutting into TCP reads, to the dashboard's parser. */
module EndToEnd {
  import opened Words
  import opened Text
  import opened Protocol
  import opened Lines
  import opened Flash
  import opened PowerCuts
  import opened DataSaver
  import L = Lifetime
  import T = NetworkTask
  import S = Server
  import P = Parser

  function Frames(packets: seq<T.Packet>): (fs: seq<string>)
    ensures |fs| == |packets|
    ensures forall i | 0 <= i < |packets| :: fs[i] == Frame(packets[i].reading, packets[i].tag)
  {
    seq(|packets|, i requires 0 <= i < |packets| => Frame(packets[i].reading, packets[i].tag))
  }

  predicate Tagged(packets: seq<T.Packet>) {
    forall i | 0 <= i < |packets| :: IsTag(packets[i].tag)
  }

  lemma {:induction false} TransmittedAppend(frames: seq<string>, frame: string)
    ensures Transmitted(frames + [frame]) == Transmitted(frames) + frame + "\r\n"
  {
    if frames == [] {
      assert ([] + [frame])[1..] == [];
    } else {
      TransmittedAppend(frames[1..], frame);
      assert (frames + [frame])[1..] == frames[1..] + [frame];
      assert frames[0] + "\r\n" + (Transmitted(frames[1..]) + frame + "\r\n") == Transmitted(frames) + frame + "\r\n";
    }
  }

  lemma FramesAppend(packets: seq<T.Packet>, last: T.Packet)
    ensures Frames(packets + [last]) == Frames(packets) + [Frame(last.reading, last.tag)]
  {
  }

  lemma {:induction false} WireIsTransmitted(packets: seq<T.Packet>)
    ensures T.WireText(packets) == Transmitted(Frames(packets))
  {
    if packets != [] {
      var before, last := packets[..|packets| - 1], packets[|packets| - 1];
      WireIsTransmitted(before);
      FramesAppend(before, last);
      TransmittedAppend(Frames(before), Frame(last.reading, last.tag));
      assert packets == before + [last];
    }
  }

  // ---------------------------------------------------------------- tags

  predicate SentTagged(sent: seq<T.Sent>) {
    forall i | 0 <= i < |sent| :: IsTag(sent[i].tag)
  }

  lemma {:induction false} DrainTagged(t: T.Task, world: T.World)
    requires SentTagged(t.sent)
    ensures SentTagged(T.Drain(t, world).sent)
    decreases |t.saver.queue|
  {
    var popped := T.Polled(t, world);
    if ReadSucceeds(t.saver, T.Opens(world(t.moment))) && T.Up(world(popped.moment)) {
      DrainTagged(T.Printed(popped, t.saver.queue[0], world), world);
    }
  }

  lemma {:induction false} RunTagged(t: T.Task, acts: seq<T.Activation>, world: T.World)
    requires SentTagged(t.sent)
    ensures SentTagged(T.Run(t, acts, world).sent)
    decreases |acts|
  {
    if acts != [] {
      DrainTagged(t.(moment := t.moment + 1), world);
      RunTagged(T.Activate(t, acts[0], world), acts[1..], world);
    }
  }

  lemma CarriedTagged(packets: seq<T.Packet>, sent: seq<T.Sent>)
    requires T.Carries(packets, sent) && SentTagged(sent)
    ensures Tagged(packets)
  {
    forall i | 0 <= i < |packets| ensures IsTag(packets[i].tag) {
      assert T.CarriesOne(packets[i], sent[i]);
    }
  }

  // ---------------------------------------------------------------- delivery

  /** However the wire is cut into reads, the dashboard sees the sent frames, one
      line each, and nothing is left over. */
  lemma FramesArrive(packets: seq<T.Packet>, chunks: seq<string>)
    requires Tagged(packets)
    ensures Concat(chunks) == T.WireText(packets) ==> Feed("", chunks) == (Frames(packets), "")
  {
    ChunkIndependent("", chunks);
    assert "" + Concat(chunks) == Concat(chunks);
    WireIsTransmitted(packets);
    forall i | 0 <= i < |packets| ensures Free(Frames(packets)[i], '\n') {
      FrameWhole(packets[i].reading, packets[i].tag);
    }
    SenderInverse(Frames(packets));
  }

  /** Every frame is then parsed back to its tag and its reading, if `stof` accepts
      its two decimals. */
  lemma ReadingsArrive(packets: seq<T.Packet>, chunks: seq<string>, stof: P.Stof)
    requires Tagged(packets)
    ensures Concat(chunks) == T.WireText(packets) ==>
              var lines := Feed("", chunks).0;
              && |lines| == |packets|
              && forall i | 0 <= i < |packets| ::
                   P.Parse(lines[i], stof) ==
                   if P.Readable(packets[i].reading, stof)
                   then P.Accepted(P.Received(packets[i].reading, stof), packets[i].tag) else P.Rejected
  {
    FramesArrive(packets, chunks);
    forall i | 0 <= i < |packets|
      ensures P.Parse(Frames(packets)[i], stof) ==
              if P.Readable(packets[i].reading, stof)
              then P.Accepted(P.Received(packets[i].reading, stof), packets[i].tag) else P.Rejected
    {
      P.ParseFrame(packets[i].reading, packets[i].tag, stof);
    }
  }

  /** A link that drops in the middle of a frame, any number of times in a row: the
      server keeps the fragments, and the next whole frame is glued to them. The
      glued line is a message of its own; the parser rejects it, and with it the
      reading, except in the one case of `Parser.GluedFrame`. */
  lemma FragmentsGlue(packets: seq<T.Packet>, fs: seq<P.Fragment>, q: SensorData, tag: string, stof: P.Stof)
    requires Tagged(packets) && fs != [] && P.AllBroken(fs) && IsTag(tag)
    ensures var left, glued := P.Remains(fs), P.Remains(fs) + Frame(q, tag);
            && Residue(T.WireText(packets) + left) == left
            && Messages(T.WireText(packets) + left + (Frame(q, tag) + "\r\n")) == Frames(packets) + [glued]
            && P.Parse(glued, stof) ==
               if P.Sneaks(fs, q) && P.Readable(q, stof)
               then P.Accepted(P.Received(q, stof), fs[0].tag) else P.Rejected
  {
    FrameWhole(q, tag);
    P.RemainsFree(fs);
    P.GluedFrame(fs, q, tag, stof);
    WholeArrives(packets);
    WholeThenFragment(T.WireText(packets), Frames(packets), P.Remains(fs), Frame(q, tag));
  }

  lemma WholeArrives(packets: seq<T.Packet>)
    requires Tagged(packets)
    ensures Feed("", [T.WireText(packets)]) == (Frames(packets), "")
  {
    var wire := T.WireText(packets);
    assert Concat([wire]) == wire + Concat([wire][1..]) == wire;
    FramesArrive(packets, [wire]);
  }

  lemma WholeThenFragment(wire: string, frames: seq<string>, fragment: string, next: string)
    requires Feed("", [wire]) == (frames, "") && Free(fragment, '\n') && Free(next, '\n')
    ensures Residue(wire + fragment) == fragment
    ensures Messages(wire + fragment + (next + "\r\n")) == frames + [fragment + next]
  {
    assert "" + wire == wire;
    assert Messages(wire) == frames && Residue(wire) == "";
    MessagesConcat(wire, fragment);
    NoLine(fragment);
    assert "" + fragment == fragment;
    MessagesConcat(wire + fragment, next + "\r\n");
    assert fragment + (next + "\r\n") == fragment + next + "\r\n";
    TransmittedOne(fragment + next);
  }

  /** From boot, whatever the link and the clock do: what the dashboard gets as
      history is what was saved and not lost, in order, and everything saved is
      accounted for once. */
  lemma HistoryArrives(acts: seq<T.Activation>, world: T.World, chunks: seq<string>)
    ensures var t := T.Run(T.BOOTED, acts, world);
            && (Concat(chunks) == T.WireText(T.AsMeant(t.sent)) ==>
                  Feed("", chunks) == (Frames(T.AsMeant(t.sent)), ""))
            && T.Framed(t.sent, OLD_SENSOR_READING_TAG) == T.SentAsOld(t.gone)
            && t.written == T.Places(t.gone) + t.saver.queue
            && AllGenuine(t.saver.queue) && T.SentGenuine(t.sent)
  {
    var t := T.Run(T.BOOTED, acts, world);
    assert T.Balanced(T.BOOTED);
    T.RunBalanced(T.BOOTED, acts, world);
    T.RunGenuine(T.BOOTED, acts, world);
    RunTagged(T.BOOTED, acts, world);
    FramesArrive(T.AsMeant(t.sent), chunks);
  }

  // ---------------------------------------------------------------- dropped links

  /** What one connection delivers: whole frames, and perhaps the start of another. */
  datatype Link = Link(whole: seq<T.Packet>, broken: Option<P.Fragment>)

  predicate LinkOk(l: Link) {
    Tagged(l.whole) && (l.broken.Some? ==> P.Broken(l.broken.value))
  }

  predicate LinksOk(links: seq<Link>) {
    forall i | 0 <= i < |links| :: LinkOk(links[i])
  }

  function Tail(l: Link): seq<P.Fragment> {
    if l.broken.Some? then [l.broken.value] else []
  }

  function LinkText(l: Link): string
    requires LinkOk(l)
  {
    T.WireText(l.whole) + P.Remains(Tail(l))
  }

  /** Everything the server receives, over all connections. */
  function LinksText(links: seq<Link>): string
    requires LinksOk(links)
  {
    if links == [] then "" else LinkText(links[0]) + LinksText(links[1..])
  }

  /** A whole frame, and the fragments glued before it. */
  datatype Item = Item(left: seq<P.Fragment>, packet: T.Packet)

  function LineOf(item: Item): string
    requires P.AllBroken(item.left)
  {
    P.Remains(item.left) + Frame(item.packet.reading, item.packet.tag)
  }

  function Plain(packets: seq<T.Packet>): (items: seq<Item>)
    ensures |items| == |packets|
    ensures forall i | 0 <= i < |packets| :: items[i] == Item([], packets[i])
  {
    seq(|packets|, i requires 0 <= i < |packets| => Item([], packets[i]))
  }

  /** One connection after these fragments: the first whole frame gets them all. */
  function ItemsOf(left: seq<P.Fragment>, l: Link): seq<Item> {
    if l.whole == [] then [] else [Item(left, l.whole[0])] + Plain(l.whole[1..])
  }

  function LeftOver(left: seq<P.Fragment>, l: Link): seq<P.Fragment> {
    (if l.whole == [] then left else []) + Tail(l)
  }

  function AllItems(left: seq<P.Fragment>, links: seq<Link>): seq<Item>
    decreases |links|
  {
    if links == [] then [] else ItemsOf(left, links[0]) + AllItems(LeftOver(left, links[0]), links[1..])
  }

  function FinallyLeft(left: seq<P.Fragment>, links: seq<Link>): seq<P.Fragment>
    decreases |links|
  {
    if links == [] then left else FinallyLeft(LeftOver(left, links[0]), links[1..])
  }

  predicate ItemsOk(items: seq<Item>) {
    forall i | 0 <= i < |items| :: P.AllBroken(items[i].left) && IsTag(items[i].packet.tag)
  }

  function LinesOf(items: seq<Item>): (lines: seq<string>)
    requires ItemsOk(items)
    ensures |lines| == |items|
    ensures forall i | 0 <= i < |items| :: lines[i] == LineOf(items[i])
  {
    seq(|items|, i requires 0 <= i < |items| => LineOf(items[i]))
  }

  /** What the parser makes of a line: a frame that nothing is glued to comes back; one
      behind fragments is lost, but for the one case that gives it a wrong tag. */
  function Outcome(item: Item, stof: P.Stof): P.ParsingResult
    requires P.AllBroken(item.left)
  {
    var q := item.packet.reading;
    if !P.Readable(q, stof) then P.Rejected
    else if item.left == [] then P.Accepted(P.Received(q, stof), item.packet.tag)
    else if P.Sneaks(item.left, q) then P.Accepted(P.Received(q, stof), item.left[0].tag)
    else P.Rejected
  }

  lemma OutcomeIs(item: Item, stof: P.Stof)
    requires P.AllBroken(item.left) && IsTag(item.packet.tag)
    ensures P.Parse(LineOf(item), stof) == Outcome(item, stof)
  {
    if item.left == [] {
      var frame := Frame(item.packet.reading, item.packet.tag);
      assert "" + frame == frame;
      P.ParseFrame(item.packet.reading, item.packet.tag, stof);
    } else {
      P.GluedFrame(item.left, item.packet.reading, item.packet.tag, stof);
    }
  }

  lemma BrokenConcat(a: seq<P.Fragment>, b: seq<P.Fragment>)
    requires P.AllBroken(a) && P.AllBroken(b)
    ensures P.AllBroken(a + b)
  {
  }

  lemma {:induction false} RemainsConcat(a: seq<P.Fragment>, b: seq<P.Fragment>)
    requires P.AllBroken(a) && P.AllBroken(b) && P.AllBroken(a + b)
    ensures P.Remains(a + b) == P.Remains(a) + P.Remains(b)
  {
    if a == [] {
      assert a + b == b && "" + P.Remains(b) == P.Remains(b);
    } else {
      assert (a + b)[1..] == a[1..] + b;
      RemainsConcat(a[1..], b);
      Regroup(P.Arrived(a[0]), P.Remains(a[1..]), P.Remains(b));
    }
  }

  /** A fragment, a frame and what follows it. */
  lemma LineThenText(left: string, frame: string, later: string)
    requires Free(left, '\n') && Free(frame, '\n')
    ensures Messages(left + (frame + "\r\n" + later)) == [left + frame] + Messages(later)
    ensures Residue(left + (frame + "\r\n" + later)) == Residue(later)
  {
    TransmittedOne(left + frame);
    TransmittedCons(left + frame, later);
    assert left + (frame + "\r\n" + later) == left + frame + "\r\n" + later;
  }

  /** The whole frames of one connection, behind fragments. */
  lemma WholeLines(left: seq<P.Fragment>, packets: seq<T.Packet>)
    requires P.AllBroken(left) && Tagged(packets) && packets != []
    ensures ItemsOk(ItemsOf(left, Link(packets, None)))
    ensures Messages(P.Remains(left) + T.WireText(packets)) == LinesOf(ItemsOf(left, Link(packets, None)))
    ensures Residue(P.Remains(left) + T.WireText(packets)) == ""
  {
    FrameWhole(packets[0].reading, packets[0].tag);
    P.RemainsFree(left);
    WireFirst(packets);
    LineThenText(P.Remains(left), Frame(packets[0].reading, packets[0].tag), T.WireText(packets[1..]));
    PacketsArrive(packets[1..]);
    FirstLineOf(left, packets);
  }

  lemma WireFirst(packets: seq<T.Packet>)
    requires packets != []
    ensures T.WireText(packets) ==
            Frame(packets[0].reading, packets[0].tag) + "\r\n" + T.WireText(packets[1..])
  {
    WireIsTransmitted(packets);
    WireIsTransmitted(packets[1..]);
    assert Frames(packets)[1..] == Frames(packets[1..]);
  }

  lemma PacketsArrive(packets: seq<T.Packet>)
    requires Tagged(packets)
    ensures Messages(T.WireText(packets)) == Frames(packets) && Residue(T.WireText(packets)) == ""
  {
    WholeArrives(packets);
    assert "" + T.WireText(packets) == T.WireText(packets);
  }

  lemma LinesConcat(a: seq<Item>, b: seq<Item>)
    requires ItemsOk(a) && ItemsOk(b)
    ensures ItemsOk(a + b) && LinesOf(a + b) == LinesOf(a) + LinesOf(b)
  {
  }

  lemma PlainLines(packets: seq<T.Packet>)
    requires Tagged(packets)
    ensures ItemsOk(Plain(packets)) && LinesOf(Plain(packets)) == Frames(packets)
  {
    forall i | 0 <= i < |packets| ensures LineOf(Plain(packets)[i]) == Frames(packets)[i] {
      assert "" + Frames(packets)[i] == Frames(packets)[i];
    }
  }

  lemma FirstLineOf(left: seq<P.Fragment>, packets: seq<T.Packet>)
    requires P.AllBroken(left) && Tagged(packets) && packets != []
    ensures ItemsOk(ItemsOf(left, Link(packets, None)))
    ensures LinesOf(ItemsOf(left, Link(packets, None))) ==
            [P.Remains(left) + Frame(packets[0].reading, packets[0].tag)] + Frames(packets[1..])
  {
    PlainLines(packets[1..]);
    LinesConcat([Item(left, packets[0])], Plain(packets[1..]));
  }

  /** One connection: its lines, and the fragments that are left. */
  lemma LinkArrives(left: seq<P.Fragment>, l: Link)
    requires P.AllBroken(left) && LinkOk(l)
    ensures P.AllBroken(LeftOver(left, l)) && ItemsOk(ItemsOf(left, l))
    ensures Messages(P.Remains(left) + LinkText(l)) == LinesOf(ItemsOf(left, l))
    ensures Residue(P.Remains(left) + LinkText(l)) == P.Remains(LeftOver(left, l))
  {
    var tail := P.Remains(Tail(l));
    P.RemainsFree(Tail(l));
    NoLine(tail);
    Regroup(P.Remains(left), T.WireText(l.whole), tail);
    if l.whole == [] {
      BrokenConcat(left, Tail(l));
      RemainsConcat(left, Tail(l));
      P.RemainsFree(left + Tail(l));
      NoLine(P.Remains(left + Tail(l)));
      assert P.Remains(left) + [] == P.Remains(left);
    } else {
      WholeLines(left, l.whole);
      MessagesConcat(P.Remains(left) + T.WireText(l.whole), tail);
      assert "" + tail == tail && [] + Tail(l) == Tail(l);
      assert LinesOf(ItemsOf(left, Link(l.whole, None))) + [] == LinesOf(ItemsOf(left, l));
    }
  }

  /** Any number of connections, each broken off or not: the lines the server makes of
      everything it receives, and what it is left with. */
  lemma {:induction false} LinksArrive(left: seq<P.Fragment>, links: seq<Link>)
    requires P.AllBroken(left) && LinksOk(links)
    ensures ItemsOk(AllItems(left, links)) && P.AllBroken(FinallyLeft(left, links))
    ensures Messages(P.Remains(left) + LinksText(links)) == LinesOf(AllItems(left, links))
    ensures Residue(P.Remains(left) + LinksText(links)) == P.Remains(FinallyLeft(left, links))
    decreases |links|
  {
    P.RemainsFree(left);
    if links == [] {
      NoLine(P.Remains(left));
      assert P.Remains(left) + "" == P.Remains(left);
    } else {
      var l, later := links[0], links[1..];
      assert LinksOk(later);
      LinkArrives(left, l);
      LinksArrive(LeftOver(left, l), later);
      Regroup(P.Remains(left), LinkText(l), LinksText(later));
      MessagesConcat(P.Remains(left) + LinkText(l), LinksText(later));
      LinesConcat(ItemsOf(left, l), AllItems(LeftOver(left, l), later));
    }
  }

  /** From start-up, over any connections and any cutting into reads: the messages are
      the whole frames in order, each with the fragments glued before it, and each is
      parsed as `Outcome` says. */
  lemma DropsHurtNext(links: seq<Link>, chunks: seq<string>, stof: P.Stof)
    requires LinksOk(links) && Concat(chunks) == LinksText(links)
    ensures ItemsOk(AllItems([], links)) && P.AllBroken(FinallyLeft([], links))
    ensures Feed("", chunks) == (LinesOf(AllItems([], links)), P.Remains(FinallyLeft([], links)))
    ensures forall i | 0 <= i < |AllItems([], links)| ::
              P.Parse(Feed("", chunks).0[i], stof) == Outcome(AllItems([], links)[i], stof)
  {
    LinksArrive([], links);
    ChunkIndependent("", chunks);
    assert "" + Concat(chunks) == LinksText(links) && "" + LinksText(links) == LinksText(links);
    var items := AllItems([], links);
    forall i | 0 <= i < |items| ensures P.Parse(LinesOf(items)[i], stof) == Outcome(items[i], stof) {
      OutcomeIs(items[i], stof);
    }
  }

  function Drops(links: seq<Link>): nat {
    if links == [] then 0 else (if links[0].broken.Some? then 1 else 0) + Drops(links[1..])
  }

  function Glued(items: seq<Item>): nat {
    if items == [] then 0 else (if items[0].left != [] then 1 else 0) + Glued(items[1..])
  }

  lemma {:induction false} GluedConcat(a: seq<Item>, b: seq<Item>)
    ensures Glued(a + b) == Glued(a) + Glued(b)
  {
    if a == [] {
      assert a + b == b;
    } else {
      assert (a + b)[1..] == a[1..] + b;
      GluedConcat(a[1..], b);
    }
  }

  lemma {:induction false} PlainNotGlued(packets: seq<T.Packet>)
    ensures Glued(Plain(packets)) == 0
  {
    if packets != [] {
      assert Plain(packets)[1..] == Plain(packets[1..]);
      PlainNotGlued(packets[1..]);
    }
  }

  /** Each drop spoils one whole frame at most. */
  lemma {:induction false} DropsGlueFew(left: seq<P.Fragment>, links: seq<Link>)
    ensures Glued(AllItems(left, links)) + (if FinallyLeft(left, links) == [] then 0 else 1) <=
            Drops(links) + if left == [] then 0 else 1
    decreases |links|
  {
    if links != [] {
      var l := links[0];
      DropsGlueFew(LeftOver(left, l), links[1..]);
      GluedConcat(ItemsOf(left, l), AllItems(LeftOver(left, l), links[1..]));
      if l.whole != [] {
        GluedConcat([Item(left, l.whole[0])], Plain(l.whole[1..]));
        PlainNotGlued(l.whole[1..]);
        assert [Item(left, l.whole[0])][1..] == [];
      }
    }
  }

  // ---------------------------------------------------------------- the code, run

  /** The firmware from first boot: flash formatted, files created, then one
      activation after another. The characters it puts on the wire are those the
      books say, and the files hold the readings the books say are stored. */
  method RunFirmware(acts: seq<T.Activation>, world: T.World) returns (wire: string, left: Image)
    ensures wire == T.WireText(T.AsMeant(T.Run(T.BOOTED, acts, world).sent))
    ensures RingOk(State(left)) && Queue(left) == Meant(T.Run(T.BOOTED, acts, world).saver.queue)
  {
    var saver := L.Factory();
    ghost var t, packets := T.Run(T.BOOTED, acts, world), [];
    wire, packets := L.RunBoot(saver, L.Boot(acts, world, L.Between), []);
    left := saver.fs.Disk();
    T.RunGenuine(T.BOOTED, acts, world);
    T.GenuineCarries(packets, t.sent);
    FaithfulMeant(left.readings, State(left), t.saver.queue);
  }

  /** One connection, its one read outstanding, nothing else going on. */
  predicate Receiving(server: S.Server)
    reads server
  {
    && !server.stopped && !server.terminated
    && server.pendingReads == [S.PendingRead(0, false)] && server.m_Socket == Some(0)
  }

  method Deliver(server: S.Server, chunk: string)
    requires Receiving(server)
    modifies server
    ensures Receiving(server) && server.m_StringBuffer == Residue(old(server.m_StringBuffer) + chunk)
    ensures server.m_MessageQueue ==
            old(server.m_MessageQueue) + S.MessageEvents(Messages(old(server.m_StringBuffer) + chunk))
  {
    server.OnReadDone(0, 0, true, chunk);
  }

  method DeliverAll(server: S.Server, chunks: seq<string>)
    requires Receiving(server)
    modifies server
    ensures Receiving(server)
    ensures var (messages, residue) := Feed(old(server.m_StringBuffer), chunks);
            server.m_MessageQueue == old(server.m_MessageQueue) + S.MessageEvents(messages) &&
            server.m_StringBuffer == residue
    decreases |chunks|
  {
    ghost var queue, buffer := server.m_MessageQueue, server.m_StringBuffer;
    if chunks == [] {
      MoreMessages(queue, [], []);
      return;
    }
    Deliver(server, chunks[0]);
    DeliverAll(server, chunks[1..]);
    MoreMessages(queue, Messages(buffer + chunks[0]), Feed(Residue(buffer + chunks[0]), chunks[1..]).0);
  }

  /** A server that has just accepted its first client. */
  method Accept() returns (server: S.Server)
    ensures fresh(server) && Receiving(server)
    ensures server.m_MessageQueue == [S.Connected] && server.m_StringBuffer == ""
  {
    server := new S.Server();
    server.OnAcceptDone(0, true, true);
  }

  /** The server fed any chunks over one connection: a connection event, then the
      messages of the whole stream. */
  method Serve(chunks: seq<string>) returns (events: seq<S.Event>)
    ensures events == [S.Connected] + S.MessageEvents(Messages(Concat(chunks)))
  {
    var server := Accept();
    DeliverAll(server, chunks);
    NoLine("");
    ChunkIndependent("", chunks);
    assert "" + Concat(chunks) == Concat(chunks);
    events := server.m_MessageQueue;
  }

  lemma MoreMessages(queue: seq<S.Event>, a: seq<string>, b: seq<string>)
    ensures queue + S.MessageEvents(a) + S.MessageEvents(b) == queue + S.MessageEvents(a + b)
    ensures queue + S.MessageEvents([]) == queue
  {
    assert S.MessageEvents(a + b) == S.MessageEvents(a) + S.MessageEvents(b);
  }
}
