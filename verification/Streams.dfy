/** The life of one stream, seen at both ends of a tunnel at once, and the ledgers that account for its bytes. */
module Streams {
  import opened Bytes
  import opened Messages
  import S = Server
  import C = Client

  // ---- What a channel holds for one stream ----

  function SidOf(m: Message): Option<Sid> {
    if m.Open? || m.Ack? || m.Data? || m.Close? then Some(m.sid) else None
  }

  function DataIn(m: Message, x: Sid): seq<Chunk> {
    if m.Data? && m.sid == x then [m.data] else []
  }

  function DataOf(ch: seq<Message>, x: Sid): seq<Chunk> {
    if ch == [] then [] else DataIn(ch[0], x) + DataOf(ch[1..], x)
  }

  /** The channel to the client: how often it opens the stream, whether data waits behind that, and the data. */
  datatype Downward = Downward(opens: nat, openFirst: bool, data: seq<Chunk>)

  function Wire(ch: seq<Message>, x: Sid): Downward {
    if ch == [] then Downward(0, true, [])
    else
      var rest := Wire(ch[1..], x);
      Downward(
        (if ch[0] == Open(x) then 1 else 0) + rest.opens,
        ch[0] == Open(x) || (DataIn(ch[0], x) == [] && rest.openFirst),
        DataIn(ch[0], x) + rest.data)
  }

  lemma {:induction false} WireGrows(ch: seq<Message>, m: Message, x: Sid)
    ensures var w, w' := Wire(ch, x), Wire(ch + [m], x);
      && w'.opens == w.opens + (if m == Open(x) then 1 else 0)
      && w'.data == w.data + DataIn(m, x)
      && w'.openFirst == (w.openFirst && (DataIn(m, x) == [] || w.opens > 0))
  {
    if ch == [] {
      assert ch + [m] == [m] && [m][1..] == [];
    } else {
      var all := ch + [m];
      assert all[1..] == ch[1..] + [m];
      WireGrows(ch[1..], m, x);
    }
  }

  lemma {:induction false} DataGrows(ch: seq<Message>, m: Message, x: Sid)
    ensures DataOf(ch + [m], x) == DataOf(ch, x) + DataIn(m, x)
  {
    if ch == [] {
      assert ch + [m] == [m] && [m][1..] == [];
    } else {
      var all := ch + [m];
      assert all[1..] == ch[1..] + [m];
      DataGrows(ch[1..], m, x);
    }
  }

  /** A frame that neither opens the stream nor carries its data. */
  predicate Quiet(m: Message, x: Sid) {
    m != Open(x) && DataIn(m, x) == []
  }

  lemma AppendQuiet(ch: seq<Message>, e: seq<Message>, x: Sid)
    requires |e| <= 1 && (e != [] ==> Quiet(e[0], x))
    ensures Wire(ch + e, x) == Wire(ch, x) && DataOf(ch + e, x) == DataOf(ch, x)
  {
    if e == [] {
      assert ch + e == ch;
    } else {
      assert e == [e[0]];
      WireGrows(ch, e[0], x);
      DataGrows(ch, e[0], x);
    }
  }

  lemma TakeQuiet(ch: seq<Message>, x: Sid)
    requires ch != [] && Quiet(ch[0], x)
    ensures Wire(ch[1..], x) == Wire(ch, x) && DataOf(ch[1..], x) == DataOf(ch, x)
  {
  }

  // ---- The stream ----

  datatype PublicEnd = PublicEnd(
    conn: Option<S.Conn>,       // the public connection's task
    linked: bool,               // in the server's stream table
    arriving: seq<Chunk>)       // what the server's reader is delivering to it

  datatype LocalEnd = LocalEnd(
    local: Option<C.Local>,     // the local target's task
    bound: bool,                // in the client's stream table
    landing: seq<Chunk>,        // what the client's reader is delivering to it
    attaching: bool,            // STREAM_OPEN taken, target being dialled
    seen: bool)                 // STREAM_OPEN taken

  datatype View = View(pub: PublicEnd, loc: LocalEnd, down: Downward, up: seq<Chunk>)

  /** In the select loop, a write included. */
  predicate PublicForwards(v: View) {
    v.pub.conn.Some? && (v.pub.conn.value.phase.Forwarding? || v.pub.conn.value.phase.Writing?)
  }

  predicate LocalForwards(v: View) {
    v.loc.local.Some? && (v.loc.local.value.phase.Forwarding? || v.loc.local.value.phase.Writing?)
  }

  /** What a task still has before it: the rest of the chunk it is writing, and its channel. */
  function PublicFront(c: S.Conn): seq<Chunk> {
    (if c.phase.Writing? then [c.phase.rest] else []) + c.queue
  }

  function LocalFront(l: C.Local): seq<Chunk> {
    (if l.phase.Writing? then [l.phase.rest] else []) + l.queue
  }

  predicate BeforeLink(v: View) {
    v.pub.conn.Some? && S.BeforeLink(v.pub.conn.value.phase)
  }

  function Held(o: Option<Chunk>): seq<Chunk> {
    if o.Some? then [o.value] else []
  }

  function HeldPublic(v: View): seq<Chunk> {
    if v.pub.conn.Some? && v.pub.conn.value.phase.Forwarding? then Held(v.pub.conn.value.phase.held) else []
  }

  function HeldLocal(v: View): seq<Chunk> {
    if v.loc.local.Some? && v.loc.local.value.phase.Forwarding? then Held(v.loc.local.value.phase.held) else []
  }

  function PublicGot(v: View): seq<Chunk> {
    if v.pub.conn.Some? then v.pub.conn.value.got else []
  }

  function LocalQueue(v: View): seq<Chunk> {
    if v.loc.local.Some? then LocalFront(v.loc.local.value) else []
  }

  function LocalPut(v: View): seq<Byte> {
    if v.loc.local.Some? then v.loc.local.value.put else []
  }

  function LocalGot(v: View): seq<Chunk> {
    if v.loc.local.Some? then v.loc.local.value.got else []
  }

  /** STREAM_OPEN is sent once, taken once, and no data for the stream overtakes it. */
  ghost predicate Shape(v: View) {
    && (v.loc.bound ==> v.loc.local.Some?)
    && (v.loc.local.Some? ==> v.loc.seen && !v.loc.attaching)
    && (v.loc.attaching ==> v.loc.seen)
    && (v.loc.landing != [] ==> v.loc.local.Some?)
    && (v.loc.local == None ==> v.up == [] && v.pub.arriving == [])
    && (v.pub.arriving != [] ==> v.pub.conn.Some? && !BeforeLink(v))
    && (BeforeLink(v) ==> v.pub.conn.value.got == [])
    && (v.pub.linked ==> v.pub.conn.Some? && S.MayBeLinked(v.pub.conn.value.phase))
    && v.down.opens + (if v.loc.seen then 1 else 0) <= 1
    && (v.pub.conn == None || NotYetSent(v.pub.conn.value.phase) ==> v.down.opens == 0 && !v.loc.seen)
    && (v.pub.conn.Some? && !NotYetSent(v.pub.conn.value.phase) && !v.pub.conn.value.phase.Finished?
        ==> v.loc.seen || v.down.opens == 1)
    && (!v.loc.seen ==> v.down.openFirst)
    && (!v.loc.seen && v.down.opens == 0 ==> v.down.data == [])
  }

  predicate NotYetSent(p: S.Phase) {
    p.Reserved? || p.Pended?
  }

  // ---- Ledgers ----

  /** `a` is a prefix of `b`, and all of it where `exact`. */
  ghost predicate Prefix<T>(a: seq<T>, b: seq<T>, exact: bool) {
    a <= b && (exact ==> a == b)
  }

  /**
   * The account of one direction of a stream: `put` are the bytes written at the far end, `front` the
   * chunks its task still has before it, `back` those on the way, `got` those read at the near end.
   * While the stream is `intact` nothing is missing in between, and with `exact` nothing at the near end
   * either; while the far task is `receiving` it has an unbroken beginning before it.
   */
  ghost predicate Ledger(
      put: seq<Byte>, front: seq<Chunk>, back: seq<Chunk>, got: seq<Chunk>, intact: bool, receiving: bool, exact: bool)
  {
    && (intact ==> Prefix(put + Flatten(front + back), Flatten(got), exact))
    && (receiving ==> put + Flatten(front) <= Flatten(got))
    && put <= Flatten(got)
  }

  lemma FlattenPrefix<T>(a: seq<seq<T>>, b: seq<seq<T>>)
    requires a <= b
    ensures Flatten(a) <= Flatten(b)
  {
    var rest := b[|a|..];
    assert b == a + rest;
    FlattenAppend(a, rest);
  }

  /** Nothing delivered yet: the chunks on the way are the first ones read. */
  lemma LedgerStarts(back: seq<Chunk>, got: seq<Chunk>, exact: bool)
    requires Prefix(back, got, exact)
    ensures Ledger([], [], back, got, true, true, exact)
  {
    FlattenPrefix(back, got);
    assert [] + back == back;
  }

  /** Where nothing has been read nothing is missing. */
  lemma LedgerOfNothing(put: seq<Byte>, front: seq<Chunk>, back: seq<Chunk>, intact: bool, receiving: bool)
    requires Ledger(put, front, back, [], intact, receiving, false)
    ensures Ledger(put, front, back, [], intact, receiving, true)
  {
  }

  /** The near end reads a chunk. */
  lemma LedgerReads(
      put: seq<Byte>, front: seq<Chunk>, back: seq<Chunk>, got: seq<Chunk>, intact: bool, receiving: bool, c: Chunk)
    requires Ledger(put, front, back, got, intact, receiving, true)
    ensures Ledger(put, front, back + [c], got + [c], intact, receiving, true)
  {
    hide Flatten;
    FlattenAppend(got, [c]);
    FlattenAppend(front + back, [c]);
    assert front + (back + [c]) == (front + back) + [c];
    assert put + (Flatten(front + back) + Flatten([c])) == (put + Flatten(front + back)) + Flatten([c]);
  }

  /** The far end's reader takes a chunk off the wire. */
  lemma LedgerTakes(
      put: seq<Byte>, front: seq<Chunk>, c: Chunk, back: seq<Chunk>, got: seq<Chunk>,
      intact: bool, receiving: bool, exact: bool)
    requires Ledger(put, front, [c] + back, got, intact, receiving, exact)
    requires receiving ==> intact
    ensures Ledger(put, front + [c], back, got, intact, receiving, exact)
  {
    hide Flatten;
    assert front + ([c] + back) == (front + [c]) + back;
    FlattenAppend(front + [c], back);
    assert put + (Flatten(front + [c]) + Flatten(back)) == (put + Flatten(front + [c])) + Flatten(back);
  }

  /** The far end's task writes the first bytes of what it has before it. */
  lemma LedgerWrites(
      put: seq<Byte>, c: Chunk, k: nat, front: seq<Chunk>, back: seq<Chunk>, got: seq<Chunk>, intact: bool, exact: bool)
    requires k <= |c| && Ledger(put, [c] + front, back, got, intact, true, exact)
    ensures Ledger(put + c[..k], [c[k..]] + front, back, got, intact, true, exact)
  {
    FlattenFront(put, c, front);
    FlattenFront(put + c[..k], c[k..], front);
    FlattenFront(put, c, front + back);
    FlattenFront(put + c[..k], c[k..], front + back);
    assert put + c == (put + c[..k]) + c[k..];
    assert ([c] + front) + back == [c] + (front + back);
    assert ([c[k..]] + front) + back == [c[k..]] + (front + back);
  }

  /** A chunk of which nothing is left is done with. */
  lemma LedgerPasses(
      put: seq<Byte>, front: seq<Chunk>, back: seq<Chunk>, got: seq<Chunk>, intact: bool, exact: bool)
    requires Ledger(put, [[]] + front, back, got, intact, true, exact)
    ensures Ledger(put, front, back, got, intact, true, exact)
  {
    FlattenFront(put, [], front);
    FlattenFront(put, [], front + back);
    assert put + [] == put;
    assert ([[]] + front) + back == [[]] + (front + back);
  }

  lemma FlattenFront(put: seq<Byte>, c: Chunk, rest: seq<Chunk>)
    ensures put + Flatten([c] + rest) == (put + c) + Flatten(rest)
  {
    var pipe := [c] + rest;
    assert pipe[1..] == rest && Flatten(pipe) == c + Flatten(rest);
  }

  /** The near end stops, perhaps with a chunk in hand, so what is on the way is all there will be. */
  lemma LedgerStops(
      put: seq<Byte>, front: seq<Chunk>, back: seq<Chunk>, held: seq<Chunk>, got: seq<Chunk>,
      intact: bool, receiving: bool, exact: bool)
    requires Ledger(put, front, back + held, got, intact, receiving, exact)
    ensures Ledger(put, front, back, got, intact, receiving, false)
  {
    hide Flatten;
    assert front + (back + held) == (front + back) + held;
    FlattenAppend(front + back, held);
    assert put + (Flatten(front + back) + Flatten(held)) == (put + Flatten(front + back)) + Flatten(held);
  }

  /** The far end lets go of the stream; its task still has the chunks before it, or some of them. */
  lemma LedgerDetaches(
      put: seq<Byte>, front: seq<Chunk>, dropped: seq<Chunk>, back: seq<Chunk>, got: seq<Chunk>,
      intact: bool, receiving: bool, exact: bool, back': seq<Chunk>, exact': bool)
    requires Ledger(put, front + dropped, back, got, intact, receiving, exact)
    ensures Ledger(put, front, back', got, false, receiving, exact')
  {
    hide Flatten;
    FlattenAppend(front, dropped);
    assert put + (Flatten(front) + Flatten(dropped)) == (put + Flatten(front)) + Flatten(dropped);
  }

  /** The far end's task is over; what it wrote stays a beginning of what was read. */
  lemma LedgerEnds(
      put: seq<Byte>, front: seq<Chunk>, back: seq<Chunk>, got: seq<Chunk>, intact: bool, receiving: bool, exact: bool,
      front': seq<Chunk>, back': seq<Chunk>, exact': bool)
    requires Ledger(put, front, back, got, intact, receiving, exact)
    ensures Ledger(put, front', back', got, false, false, exact')
  {
  }

  // ---- The two ledgers of a stream ----

  /** Nothing has been dropped on the way down, and nothing will be until the client lets go of the stream. */
  predicate DownIntact(v: View) {
    !v.loc.seen || v.loc.attaching || (v.loc.bound && LocalForwards(v))
  }

  ghost predicate DownLedger(v: View) {
    Ledger(LocalPut(v), LocalQueue(v) + v.loc.landing, v.down.data + HeldPublic(v), PublicGot(v),
           DownIntact(v), LocalForwards(v), PublicForwards(v))
  }

  /** What the local target's task read, from the first chunk that was not dispatched too early. */
  function LocalKept(v: View): seq<Chunk> {
    if v.pub.conn.Some? && v.pub.conn.value.early <= |LocalGot(v)|
    then LocalGot(v)[v.pub.conn.value.early..] else LocalGot(v)
  }

  ghost predicate UpLedger(v: View) {
    v.pub.conn.Some? ==>
      var c := v.pub.conn.value;
      && c.early <= |LocalGot(v)|
      && if BeforeLink(v)
         then c.queue == [] && c.put == [] && Prefix(v.up + HeldLocal(v), LocalKept(v), LocalForwards(v))
         else Ledger(c.put, PublicFront(c) + v.pub.arriving, v.up + HeldLocal(v), LocalKept(v),
                     v.pub.linked && PublicForwards(v), PublicForwards(v), LocalForwards(v))
  }

  ghost predicate ViewInv(v: View) {
    Shape(v) && DownLedger(v) && UpLedger(v)
  }

  function WithConn(v: View, c: S.Conn): View {
    v.(pub := v.pub.(conn := Some(c)))
  }

  function WithLocal(v: View, l: C.Local): View {
    v.(loc := v.loc.(local := Some(l)))
  }

  // ---- Steps of the public connection's task ----

  lemma Reserve(v: View)
    requires ViewInv(v) && v.pub.conn == None
    ensures ViewInv(WithConn(v, S.Conn(S.Reserved, None, [], [], [], 0)))
  {
    hide Ledger;
    assert v.up + HeldLocal(v) == [];
  }

  /** Moves before the stream is in the table, or giving up on it; none of them shows on the wire. */
  lemma MoveBeforeLink(v: View, p: S.Phase)
    requires ViewInv(v) && BeforeLink(v) && (S.BeforeLink(p) || p.Finished?)
    requires NotYetSent(v.pub.conn.value.phase) <==> NotYetSent(p) || (v.pub.conn.value.phase.Pended? && p.Finished?)
    ensures ViewInv(WithConn(v, v.pub.conn.value.(phase := p)))
  {
    hide Ledger;
    var c, kept, back := v.pub.conn.value, LocalKept(v), v.up + HeldLocal(v);
    LedgerStarts(back, kept, LocalForwards(v));
    LedgerEnds([], [], back, kept, true, true, LocalForwards(v), PublicFront(c) + v.pub.arriving, back,
               LocalForwards(v));
  }

  lemma OpenSent(v: View)
    requires ViewInv(v) && v.pub.conn.Some? && v.pub.conn.value.phase.Pended?
    ensures ViewInv(WithConn(v, v.pub.conn.value.(phase := S.Waiting)).(down := v.down.(opens := v.down.opens + 1)))
  {
    hide Ledger;
  }

  lemma Answered(v: View, answer: Option<bool>)
    requires ViewInv(v) && v.pub.conn.Some?
    ensures ViewInv(WithConn(v, v.pub.conn.value.(answer := answer)))
  {
    hide Ledger;
  }

  lemma LinkPublic(v: View)
    requires ViewInv(v) && v.pub.conn.Some? && v.pub.conn.value.phase.Accepted?
    ensures ViewInv(v.(pub := v.pub.(conn := Some(v.pub.conn.value.(phase := S.Forwarding(None))), linked := true)))
  {
    hide Ledger;
    var w := v.(pub := v.pub.(conn := Some(v.pub.conn.value.(phase := S.Forwarding(None))), linked := true));
    LedgerStarts(v.up + HeldLocal(v), LocalKept(v), LocalForwards(v));
    assert v.pub.conn.value.put == [] && PublicFront(v.pub.conn.value) + v.pub.arriving == [];
    assert v.down.data + HeldPublic(v) == v.down.data + HeldPublic(w);
    LedgerOfNothing(LocalPut(v), LocalQueue(v) + v.loc.landing, v.down.data + HeldPublic(v), DownIntact(v),
                    LocalForwards(v));
  }

  lemma PublicReads(v: View, c: Chunk)
    requires ViewInv(v) && v.pub.conn.Some? && v.pub.conn.value.phase == S.Forwarding(None)
    ensures ViewInv(WithConn(v, v.pub.conn.value.(phase := S.Forwarding(Some(c)), got := v.pub.conn.value.got + [c])))
  {
    hide Ledger;
    var w := WithConn(v, v.pub.conn.value.(phase := S.Forwarding(Some(c)), got := v.pub.conn.value.got + [c]));
    assert v.down.data + HeldPublic(v) == v.down.data;
    assert HeldPublic(w) == [c] && LocalKept(w) == LocalKept(v);
    LedgerReads(LocalPut(v), LocalQueue(v) + v.loc.landing, v.down.data, PublicGot(v), DownIntact(v),
                LocalForwards(v), c);
  }

  /** While a connection forwards, its STREAM_OPEN is either taken or ahead of all its data. */
  lemma OpenIsAhead(v: View)
    requires ViewInv(v) && PublicForwards(v)
    ensures v.loc.seen || (v.down.openFirst && v.down.opens > 0)
  {
  }

  lemma PublicForwardsChunk(v: View, c: Chunk, openFirst: bool)
    requires ViewInv(v) && v.pub.conn.Some? && v.pub.conn.value.phase == S.Forwarding(Some(c))
    requires v.loc.seen || openFirst
    ensures ViewInv(WithConn(v, v.pub.conn.value.(phase := S.Forwarding(None))).
                      (down := Downward(v.down.opens, openFirst, v.down.data + [c])))
  {
    hide Ledger;
    assert v.down.data + HeldPublic(v) == (v.down.data + [c]) + [];
  }

  /** Leaving the select loop, with or without a chunk in hand, and everything after it. */
  lemma PublicLeaves(v: View, p: S.Phase, linked: bool)
    requires ViewInv(v) && v.pub.conn.Some? && !BeforeLink(v)
    requires !p.Forwarding? && !p.Writing? && !S.BeforeLink(p) && (v.pub.conn.value.phase.Finished? ==> p.Finished?)
    requires linked ==> v.pub.linked && S.MayBeLinked(p)
    ensures ViewInv(v.(pub := v.pub.(conn := Some(v.pub.conn.value.(phase := p)), linked := linked)))
  {
    hide Ledger;
    var c, front, back := v.pub.conn.value, LocalQueue(v) + v.loc.landing, v.up + HeldLocal(v);
    LedgerStops(LocalPut(v), front, v.down.data, HeldPublic(v), PublicGot(v), DownIntact(v), LocalForwards(v),
                PublicForwards(v));
    assert v.down.data + [] == v.down.data;
    LedgerEnds(c.put, PublicFront(c) + v.pub.arriving, back, LocalKept(v),
               v.pub.linked && PublicForwards(v), PublicForwards(v),
               LocalForwards(v), PublicFront(c.(phase := p)) + v.pub.arriving, back, LocalForwards(v));
  }

  /** A chunk comes out of the channel; nothing is written yet. */
  lemma PublicTakes(v: View)
    requires ViewInv(v) && v.pub.conn.Some? && v.pub.conn.value.phase == S.Forwarding(None)
    requires v.pub.conn.value.queue != []
    ensures var c := v.pub.conn.value;
      ViewInv(WithConn(v, c.(phase := S.Writing(c.queue[0]), queue := c.queue[1..])))
  {
    hide Ledger;
    var c := v.pub.conn.value;
    assert [] + c.queue == [c.queue[0]] + c.queue[1..];
  }

  lemma PublicWrites(v: View, k: nat)
    requires ViewInv(v) && v.pub.conn.Some? && v.pub.conn.value.phase.Writing?
    requires k <= |v.pub.conn.value.phase.rest|
    ensures var c := v.pub.conn.value;
      ViewInv(WithConn(v, c.(phase := S.Writing(c.phase.rest[k..]), put := c.put + c.phase.rest[..k])))
  {
    hide Ledger, Flatten, Prefix;
    var c := v.pub.conn.value;
    var rest := c.phase.rest;
    var w := WithConn(v, c.(phase := S.Writing(rest[k..]), put := c.put + rest[..k]));
    var behind := c.queue + v.pub.arriving;
    assert PublicFront(c) + v.pub.arriving == [rest] + behind;
    assert PublicFront(w.pub.conn.value) + w.pub.arriving == [rest[k..]] + behind;
    LedgerWrites(c.put, rest, k, behind, v.up + HeldLocal(v), LocalKept(v), v.pub.linked, LocalForwards(v));
    assert DownLedger(w) by {
      assert PublicGot(w) == PublicGot(v) && HeldPublic(w) == HeldPublic(v) == [];
    }
  }

  lemma PublicWrote(v: View)
    requires ViewInv(v) && v.pub.conn.Some? && v.pub.conn.value.phase == S.Writing([])
    ensures ViewInv(WithConn(v, v.pub.conn.value.(phase := S.Forwarding(None))))
  {
    hide Ledger;
    var c, none: Chunk := v.pub.conn.value, [];
    assert ([none] + c.queue) + v.pub.arriving == [none] + (c.queue + v.pub.arriving);
    assert [] + c.queue == c.queue;
    LedgerPasses(c.put, c.queue + v.pub.arriving, v.up + HeldLocal(v), LocalKept(v), v.pub.linked, LocalForwards(v));
  }

  // ---- What the server's reader takes off the wire ----

  /** A chunk for a stream in the table: off the wire, on its way to the channel. */
  lemma ServerTakesData(v: View)
    requires ViewInv(v) && v.pub.linked && v.up != [] && v.pub.arriving == []
    ensures ViewInv(v.(pub := v.pub.(arriving := [v.up[0]]), up := v.up[1..]))
  {
    hide Ledger;
    var c, back := v.pub.conn.value, v.up[1..] + HeldLocal(v);
    assert v.up + HeldLocal(v) == [v.up[0]] + back;
    assert PublicFront(c) + v.pub.arriving == PublicFront(c);
    LedgerTakes(c.put, PublicFront(c), v.up[0], back, LocalKept(v), PublicForwards(v), PublicForwards(v),
                LocalForwards(v));
  }

  /** A chunk for a stream that is not in the table yet is dropped, and counts as early. */
  lemma ServerDropsEarly(v: View)
    requires ViewInv(v) && BeforeLink(v) && v.up != []
    ensures ViewInv(WithConn(v, v.pub.conn.value.(early := v.pub.conn.value.early + 1)).(up := v.up[1..]))
  {
    hide Ledger;
    var c := v.pub.conn.value;
    var w := WithConn(v, c.(early := c.early + 1)).(up := v.up[1..]);
    var pipe := v.up + HeldLocal(v);
    assert pipe[1..] == w.up + HeldLocal(w);
    assert pipe <= LocalKept(v) && |pipe| > 0;
    assert LocalKept(w) == LocalKept(v)[1..];
  }

  /** A chunk for a stream that has left the table is dropped. */
  lemma ServerDropsLate(v: View)
    requires ViewInv(v) && !v.pub.linked && !BeforeLink(v) && v.up != []
    ensures ViewInv(v.(up := v.up[1..]))
  {
    hide Ledger;
    if v.pub.conn.Some? {
      var c, back := v.pub.conn.value, v.up[1..] + HeldLocal(v);
      assert (PublicFront(c) + v.pub.arriving) + [] == PublicFront(c) + v.pub.arriving;
      LedgerDetaches(c.put, PublicFront(c) + v.pub.arriving, [], v.up + HeldLocal(v), LocalKept(v), false,
                     PublicForwards(v), LocalForwards(v), back, LocalForwards(v));
    }
  }

  lemma ServerDelivers(v: View, d: Chunk)
    requires ViewInv(v) && v.pub.arriving == [d]
    ensures var c := v.pub.conn.value;
      ViewInv(v.(pub := v.pub.(arriving := [],
        conn := Some(if S.ReceiverAlive(c.phase) then c.(queue := c.queue + [d]) else c))))
  {
    hide Ledger;
    var c, back := v.pub.conn.value, v.up + HeldLocal(v);
    if S.ReceiverAlive(c.phase) {
      assert PublicFront(c.(queue := c.queue + [d])) + [] == PublicFront(c) + v.pub.arriving;
    } else {
      LedgerEnds(c.put, PublicFront(c) + v.pub.arriving, back, LocalKept(v), false, false, LocalForwards(v),
                 PublicFront(c) + [], back, LocalForwards(v));
    }
  }

  lemma ServerUnlinks(v: View)
    requires ViewInv(v)
    ensures ViewInv(v.(pub := v.pub.(linked := false)))
  {
    hide Ledger;
    if v.pub.conn.Some? && !BeforeLink(v) {
      var c, back := v.pub.conn.value, v.up + HeldLocal(v);
      assert (PublicFront(c) + v.pub.arriving) + [] == PublicFront(c) + v.pub.arriving;
      LedgerDetaches(c.put, PublicFront(c) + v.pub.arriving, [], back, LocalKept(v), v.pub.linked && PublicForwards(v),
                     PublicForwards(v), LocalForwards(v), back, LocalForwards(v));
    }
  }

  // ---- What the client's reader takes off the wire ----

  /** Behind the one STREAM_OPEN nothing matters about the order any more. */
  lemma ClientTakesOpen(v: View, openFirst: bool)
    requires ViewInv(v) && v.down.opens > 0 && v.loc.landing == []
    ensures ViewInv(v.(loc := v.loc.(attaching := true, seen := true),
                       down := Downward(v.down.opens - 1, openFirst, v.down.data)))
  {
    hide Ledger;
  }

  /** The target cannot be reached, or the session ends first: the stream is never attached. */
  lemma ClientGivesUp(v: View)
    requires ViewInv(v) && v.loc.attaching
    ensures ViewInv(v.(loc := v.loc.(attaching := false)))
  {
    hide Ledger;
    var front, back := LocalQueue(v) + v.loc.landing, v.down.data + HeldPublic(v);
    LedgerEnds(LocalPut(v), front, back, PublicGot(v), true, false, PublicForwards(v), front, back, PublicForwards(v));
  }

  lemma ClientLinks(v: View)
    requires ViewInv(v) && v.loc.attaching
    ensures ViewInv(v.(loc := v.loc.(attaching := false, bound := true,
        local := Some(C.Local(C.Forwarding(None), [], [], [])))))
  {
    hide Flatten;
    var w := v.(loc := v.loc.(attaching := false, bound := true,
        local := Some(C.Local(C.Forwarding(None), [], [], []))));
    assert Flatten<Byte>([]) == [] by { FlattenNone(); }
    assert LocalKept(w) == [] && w.up + HeldLocal(w) == [];
  }

  lemma FlattenNone()
    ensures Flatten<Byte>([]) == []
  {
  }

  lemma ClientTakesData(v: View, openFirst: bool)
    requires ViewInv(v) && v.loc.bound && v.down.data != [] && v.loc.landing == []
    ensures ViewInv(v.(loc := v.loc.(landing := [v.down.data[0]]),
                       down := Downward(v.down.opens, openFirst, v.down.data[1..])))
  {
    hide Ledger;
    var back := v.down.data[1..] + HeldPublic(v);
    assert v.down.data + HeldPublic(v) == [v.down.data[0]] + back;
    assert LocalQueue(v) + v.loc.landing == LocalQueue(v);
    LedgerTakes(LocalPut(v), LocalQueue(v), v.down.data[0], back, PublicGot(v), LocalForwards(v), LocalForwards(v),
                PublicForwards(v));
  }

  /** Data for a stream the client has let go of is dropped; for one not opened yet there is none. */
  lemma ClientDropsData(v: View, openFirst: bool)
    requires ViewInv(v) && !v.loc.bound && !v.loc.attaching && v.loc.seen && v.down.data != []
    ensures ViewInv(v.(down := Downward(v.down.opens, openFirst, v.down.data[1..])))
  {
    hide Ledger;
    var front := LocalQueue(v) + v.loc.landing;
    assert front + [] == front;
    LedgerDetaches(LocalPut(v), front, [], v.down.data + HeldPublic(v), PublicGot(v), false, LocalForwards(v),
                   PublicForwards(v), v.down.data[1..] + HeldPublic(v), PublicForwards(v));
  }

  lemma ClientDelivers(v: View, d: Chunk)
    requires ViewInv(v) && v.loc.landing == [d]
    ensures var l := v.loc.local.value;
      ViewInv(v.(loc := v.loc.(landing := [],
        local := Some(if C.ReceiverAlive(l.phase) then l.(queue := l.queue + [d]) else l))))
  {
    hide Ledger;
    var l, back := v.loc.local.value, v.down.data + HeldPublic(v);
    if C.ReceiverAlive(l.phase) {
      assert LocalFront(l.(queue := l.queue + [d])) + [] == LocalFront(l) + v.loc.landing;
    } else {
      LedgerEnds(l.put, LocalFront(l) + v.loc.landing, back, PublicGot(v), false, false, PublicForwards(v),
                 LocalFront(l) + [], back, PublicForwards(v));
    }
  }

  /** The client lets go of a stream, with `landing` delivered all the same or, at the session's end, not. */
  lemma ClientUnbinds(v: View, landing: seq<Chunk>)
    requires ViewInv(v) && !v.loc.attaching && (landing == v.loc.landing || landing == [])
    ensures ViewInv(v.(loc := v.loc.(bound := false, landing := landing)))
  {
    hide Ledger;
    if v.loc.seen {
      var front, back := LocalQueue(v) + landing, v.down.data + HeldPublic(v);
      var dropped := if landing == v.loc.landing then [] else v.loc.landing;
      assert front + dropped == LocalQueue(v) + v.loc.landing;
      LedgerDetaches(LocalPut(v), front, dropped, back, PublicGot(v), DownIntact(v), LocalForwards(v),
                     PublicForwards(v), back, PublicForwards(v));
    }
  }

  // ---- Steps of the local target's task ----

  lemma LocalReads(v: View, c: Chunk)
    requires ViewInv(v) && v.loc.local.Some? && v.loc.local.value.phase == C.Forwarding(None)
    ensures ViewInv(WithLocal(v, v.loc.local.value.(phase := C.Forwarding(Some(c)),
        got := v.loc.local.value.got + [c])))
  {
    hide Ledger;
    var w := WithLocal(v, v.loc.local.value.(phase := C.Forwarding(Some(c)), got := v.loc.local.value.got + [c]));
    assert v.up + HeldLocal(v) == v.up;
    assert HeldLocal(w) == [c] && LocalKept(w) == LocalKept(v) + [c];
    if v.pub.conn.Some? && !BeforeLink(v) {
      var p := v.pub.conn.value;
      LedgerReads(p.put, PublicFront(p) + v.pub.arriving, v.up, LocalKept(v),
                  v.pub.linked && PublicForwards(v), PublicForwards(v), c);
    }
  }

  lemma LocalForwardsChunk(v: View, c: Chunk)
    requires ViewInv(v) && v.loc.local.Some? && v.loc.local.value.phase == C.Forwarding(Some(c))
    ensures ViewInv(WithLocal(v, v.loc.local.value.(phase := C.Forwarding(None))).(up := v.up + [c]))
  {
    hide Ledger;
    assert v.up + HeldLocal(v) == (v.up + [c]) + [];
  }

  /** Leaving the select loop, with or without a chunk in hand, and everything after it. */
  lemma LocalLeaves(v: View, p: C.Phase, bound: bool)
    requires ViewInv(v) && v.loc.local.Some? && !p.Forwarding? && !p.Writing? && (bound ==> v.loc.bound)
    ensures ViewInv(v.(loc := v.loc.(local := Some(v.loc.local.value.(phase := p)), bound := bound)))
  {
    hide Ledger;
    var front, back := LocalQueue(v) + v.loc.landing, v.down.data + HeldPublic(v);
    LedgerEnds(LocalPut(v), front, back, PublicGot(v), DownIntact(v), LocalForwards(v), PublicForwards(v),
               LocalFront(v.loc.local.value.(phase := p)) + v.loc.landing, back, PublicForwards(v));
    LocalStops(v);
    assert v.up + [] == v.up;
  }

  /** Upward, a local task that stops leaves what is on the way. */
  lemma LocalStops(v: View)
    requires ViewInv(v) && v.pub.conn.Some?
    ensures var c := v.pub.conn.value;
      if BeforeLink(v) then v.up <= LocalKept(v)
      else Ledger(c.put, PublicFront(c) + v.pub.arriving, v.up, LocalKept(v),
                  v.pub.linked && PublicForwards(v), PublicForwards(v), false)
  {
    hide Ledger;
    var c := v.pub.conn.value;
    if !BeforeLink(v) {
      LedgerStops(c.put, PublicFront(c) + v.pub.arriving, v.up, HeldLocal(v), LocalKept(v),
                  v.pub.linked && PublicForwards(v), PublicForwards(v), LocalForwards(v));
    }
  }

  lemma LocalTakes(v: View)
    requires ViewInv(v) && v.loc.local.Some? && v.loc.local.value.phase == C.Forwarding(None)
    requires v.loc.local.value.queue != []
    ensures var l := v.loc.local.value;
      ViewInv(WithLocal(v, l.(phase := C.Writing(l.queue[0]), queue := l.queue[1..])))
  {
    hide Ledger;
    var l := v.loc.local.value;
    assert [] + l.queue == [l.queue[0]] + l.queue[1..];
  }

  lemma LocalWrites(v: View, k: nat)
    requires ViewInv(v) && v.loc.local.Some? && v.loc.local.value.phase.Writing?
    requires k <= |v.loc.local.value.phase.rest|
    ensures var l := v.loc.local.value;
      ViewInv(WithLocal(v, l.(phase := C.Writing(l.phase.rest[k..]), put := l.put + l.phase.rest[..k])))
  {
    hide Ledger, Flatten, Prefix;
    var l := v.loc.local.value;
    var rest := l.phase.rest;
    var w := WithLocal(v, l.(phase := C.Writing(rest[k..]), put := l.put + rest[..k]));
    var behind := l.queue + v.loc.landing;
    assert LocalQueue(v) + v.loc.landing == [rest] + behind;
    assert LocalQueue(w) + w.loc.landing == [rest[k..]] + behind;
    LedgerWrites(l.put, rest, k, behind, v.down.data + HeldPublic(v), PublicGot(v), v.loc.bound, PublicForwards(v));
    assert UpLedger(w) by {
      assert LocalKept(w) == LocalKept(v) && HeldLocal(w) == HeldLocal(v) == [];
    }
  }

  lemma LocalWrote(v: View)
    requires ViewInv(v) && v.loc.local.Some? && v.loc.local.value.phase == C.Writing([])
    ensures ViewInv(WithLocal(v, v.loc.local.value.(phase := C.Forwarding(None))))
  {
    hide Ledger;
    var l, none: Chunk := v.loc.local.value, [];
    assert ([none] + l.queue) + v.loc.landing == [none] + (l.queue + v.loc.landing);
    assert [] + l.queue == l.queue;
    LedgerPasses(l.put, l.queue + v.loc.landing, v.down.data + HeldPublic(v), PublicGot(v), v.loc.bound,
                 PublicForwards(v));
  }
}
