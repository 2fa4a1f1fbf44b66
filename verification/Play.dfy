/** The class, run from its constructor: what holds of all runs holds of it. */
module Play {
  import opened Bytes
  import opened CcmSpec
  import opened Prf
  import opened Peers
  import opened RecordSpec
  import opened Engine
  import Order
  import Keys
  import Nonces
  import Connection

  /**
   * A peer through any sequence of datagrams and calls. Its fields end up as the run says; so, with the exceptions
   * on record, a connected peer has gone through a whole handshake and uses the keys derived in it, its shared
   * storage holds what its next reader takes it for, and no record repeats a number.
   */
  method Play(c: Config, w: World, vs: seq<Event>) returns (p: Connection.Peer)
    ensures fresh(p) && p.Valid() && p.View() == Run(c, w, vs)
    ensures Nonces.Sound(c, p.View())
    ensures Order.Tame(w) && p.known && p.state == Connected ==>
      && (!p.doneCrossed ==> Order.Complete(c.hash, p.role, p.done))
      && (!p.doneCrossed && !(p.role == Server && p.doneWrapped) ==> Keys.Keyed(c.hash, p.View().s0, p.done))
      && (p.slot0 == null <==> p.role == Server && p.doneWrapped)
    ensures Order.Tame(w) && p.known && p.handshake != null && p.handshake.Valid() && !p.handshake.crossed ==>
      Order.Lawful(c.hash, p.role, p.handshake.tmp[..], p.handshake.trail)
  {
    hide Step, Nonces.Sound, Order.Tame, Order.Complete, Keys.Keyed, Order.Lawful;
    p := new Connection.Peer();
    var i := 0;
    assert vs[..0] == [];
    while i < |vs|
      invariant 0 <= i <= |vs| && fresh(p) && p.Valid() && fresh(p.repr) && p.View() == Run(c, w, vs[..i])
    {
      assert vs[..i + 1][..i] == vs[..i];
      p.Perform(c, w, vs[i]);
      i := i + 1;
    }
    assert vs[..i] == vs;
    Nonces.RunKeeps(c, w, vs);
    p.Fields();
    if Order.Tame(w) {
      Order.ConnectedIsComplete(c, w, vs);
      Order.StorageIsLawful(c, w, vs);
      Keys.KeyedExactly(c, w, vs);
      Keys.SlotEmptyExactly(c, w, vs);
    }
  }
}
