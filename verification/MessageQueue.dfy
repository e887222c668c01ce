/** src/sync/queue.c, for one caller at a time: a message queue over a counted list, a semaphore and the
    pool of unused cells it shares with the other queues. */
module MessageQueue {
  import opened Basics
  import opened CountedList

  datatype Msg = Msg(buf: Option<Bytes>, length: nat, prio: nat, encrypt: bool, mark: nat, attrib: nat)

  /** What a queue keeps of a pushed message: no buffer without a length. */
  function Normalized(m: Msg): Msg {
    if m.length == 0 then m.(buf := None) else m
  }

  class Cell {
    var msg: Msg
    constructor (msg: Msg)
      ensures this.msg == msg
    {
      this.msg := msg;
    }
  }

  function Messages(cells: seq<Cell>): (s: seq<Msg>)
    reads cells
    ensures |s| == |cells|
  {
    seq(|cells|, i requires 0 <= i < |cells| reads cells => cells[i].msg)
  }

  /** A queue and the pool of unused cells. */
  class Queue {
    const list: List<Cell>
    const unused: List<Cell>
    var sem: nat

    ghost predicate Valid()
      reads this, list, unused
    {
      && list != unused && list.Valid() && unused.Valid() && sem == |list.nodes|
      && forall c :: c in list.nodes ==> c !in unused.nodes
    }

    ghost function Contents(): seq<Msg>
      reads this, list, list.nodes
    {
      Messages(list.nodes)
    }

    constructor (unused: List<Cell>)
      requires unused.Valid()
      ensures Valid() && Contents() == [] && this.unused == unused && fresh(list)
    {
      this.list := new List();
      this.unused := unused;
      this.sem := 0;
    }

    /** queue_msg_new: a cell from the pool, or a new one, with every field set. */
    method NewCell(m: Msg) returns (c: Cell)
      requires Valid()
      modifies unused, unused.nodes
      ensures Valid() && Contents() == old(Contents())
      ensures c !in list.nodes && c !in unused.nodes && c.msg == Normalized(m)
      ensures c.msg == if m.length > 0 then m else Msg(None, 0, m.prio, m.encrypt, m.mark, m.attrib)
      ensures if old(unused.nodes) == [] then fresh(c) && unused.nodes == []
              else c == old(unused.nodes)[0] && unused.nodes == old(unused.nodes)[1..]
    {
      var taken := unused.Extract();
      if taken.Some? {
        c := taken.value;
      } else {
        c := new Cell(m);
      }
      c.msg := c.msg.(length := m.length, mark := m.mark, prio := m.prio, encrypt := m.encrypt, attrib := m.attrib);
      c.msg := c.msg.(buf := if m.length == 0 || m.buf.None? then None else m.buf);
      assert forall x :: x in list.nodes ==> x.msg == old(x.msg);
    }

    /** queue_msg_recycle: the attribute is left as it was. */
    method Recycle(c: Cell)
      requires Valid() && c !in list.nodes && c !in unused.nodes
      modifies c, unused
      ensures c.msg == Msg(None, 0, 0, true, 0, old(c.msg).attrib)
      ensures Valid() && Contents() == old(Contents()) && unused.nodes == old(unused.nodes) + [c]
    {
      c.msg := Msg(None, 0, 0, true, 0, c.msg.attrib);
      unused.Insert(c);
    }

    method Push(m: Msg)
      requires Valid()
      modifies this, list, unused, unused.nodes
      ensures Valid() && Contents() == old(Contents()) + [Normalized(m)]
      ensures m.length > 0 ==> Contents() == old(Contents()) + [m]
      ensures m.length == 0 ==> Contents() == old(Contents()) + [Msg(None, 0, m.prio, m.encrypt, m.mark, m.attrib)]
    {
      var c := NewCell(m);
      list.Insert(c);
      sem := sem + 1;
    }

    /** A semaphore at zero makes the pull time out. */
    method Pull() returns (m: Option<Msg>)
      requires Valid()
      modifies this, list, unused, list.nodes
      ensures Valid()
      ensures if old(Contents()) == [] then m.None? && Contents() == []
              else m == Some(old(Contents())[0]) && Contents() == old(Contents())[1..]
                   && unused.nodes == old(unused.nodes) + [old(list.nodes)[0]]
    {
      m := None;
      if sem == 0 { return; }
      sem := sem - 1;
      var c := list.Extract();
      m := Some(c.value.msg);
      Recycle(c.value);
    }

    /** Every cell goes to the pool; the count of messages dropped. */
    method Flush() returns (ret: int)
      requires Valid()
      modifies this, list, unused, list.nodes
      ensures Valid() && Contents() == [] && ret == |old(Contents())|
      ensures unused.nodes == old(unused.nodes) + old(list.nodes)
    {
      var released;
      ret, released := list.Flush();
      sem := 0;
      for i := 0 to |released|
        invariant Valid() && list.nodes == []
        invariant unused.nodes == old(unused.nodes) + released[..i]
      {
        Recycle(released[i]);
      }
      assert released[..|released|] == released;
    }
  }
}
