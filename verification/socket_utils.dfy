/**
 common/socket_utils.h: `sendAll` and `recvAll` over a kernel that transfers as many bytes as it likes.
 Each connection is described by what its peer has delivered and by how much more the peer will take.
 */
module SocketUtils {
  import opened Basics

  /** `std::numeric_limits<int>::max()`. */
  const INT_MAX := 0x7FFF_FFFF

  /**
   One TCP connection as the server's side of it sees it.
   `delivered`: every byte the peer has got through; `inbox`: those of them not read yet;
   `outbox`: every byte taken from this side; `window`: how many more will be taken before `send` fails.
   */
  datatype Channel = Channel(delivered: seq<Byte>, inbox: seq<Byte>, outbox: seq<Byte>, window: nat)

  const FRESH_CHANNEL := Channel([], [], [], 0)

  predicate CanRead(c: Channel, n: nat) {
    n <= |c.inbox|
  }

  /** The channel once `n` bytes were asked for: if fewer will ever come, all of them are gone. */
  function Read(c: Channel, n: nat): Channel {
    c.(inbox := if CanRead(c, n) then c.inbox[n..] else [])
  }

  predicate CanWrite(c: Channel, data: seq<Byte>) {
    |data| <= c.window
  }

  function Write(c: Channel, data: seq<Byte>): Channel {
    var n := if CanWrite(c, data) then |data| else c.window;
    c.(outbox := c.outbox + data[..n], window := c.window - n)
  }

  /** Sending in pieces, and going on after a piece that did not fit, is sending the whole. */
  lemma WriteAppend(c: Channel, a: seq<Byte>, b: seq<Byte>)
    ensures Write(Write(c, a), b) == Write(c, a + b)
    ensures CanWrite(c, a + b) <==> CanWrite(c, a) && CanWrite(Write(c, a), b)
  {
    var w := Write(Write(c, a), b);
    assert w.outbox == Write(c, a + b).outbox;
  }

  /** Reading takes the next bytes and touches nothing else. */
  lemma ReadLaws(c: Channel, n: nat)
    ensures
      var r := Read(c, n);
      && r.delivered == c.delivered && r.outbox == c.outbox && r.window == c.window
      && (CanRead(c, n) <==> n <= |c.inbox|) && (CanRead(c, n) ==> c.inbox == c.inbox[..n] + r.inbox)
      && (!CanRead(c, n) ==> r.inbox == [])
  {
  }

  /** Writing puts out the data as far as there is room, after what was there, and touches nothing else. */
  lemma WriteLaws(c: Channel, data: seq<Byte>)
    ensures
      var r := Write(c, data);
      && r.delivered == c.delivered && r.inbox == c.inbox
      && c.outbox <= r.outbox <= c.outbox + data && |r.outbox| + r.window == |c.outbox| + c.window
      && (CanWrite(c, data) <==> r.outbox == c.outbox + data) && (!CanWrite(c, data) ==> r.window == 0)
  {
    if CanWrite(c, data) {
      assert data[..|data|] == data;
    }
  }

  lemma WriteNothing(c: Channel)
    ensures Write(c, []) == c && CanWrite(c, [])
  {
    assert c.outbox + [] == c.outbox;
  }

  /** Once something did not fit, nothing more goes out. */
  lemma WriteStopped(c: Channel, a: seq<Byte>, b: seq<Byte>)
    requires !CanWrite(c, a)
    ensures Write(c, a + b) == Write(c, a) && !CanWrite(c, a + b)
  {
    assert (a + b)[..c.window] == a[..c.window];
  }

  /** The process's table of open connections. */
  class Sockets {
    var channels: map<Handle, Channel>

    constructor ()
      ensures channels == map[]
    {
      channels := map[];
    }

    /** `recv`: at most `limit` bytes, at least one while any is left, and 0 or -1 once none will come. */
    method Recv(h: Handle, buffer: array<Byte>, offset: nat, limit: nat) returns (n: int)
      requires h in channels && 0 < limit && offset + limit <= buffer.Length
      modifies this, buffer
      ensures n <= limit && (n > 0 <==> old(channels[h].inbox) != [])
      ensures n > 0 ==> n <= |old(channels[h].inbox)|
      ensures n > 0 ==> channels == old(channels)[h := Read(old(channels[h]), n)]
      ensures n > 0 ==> buffer[offset..offset + n] == old(channels[h].inbox)[..n]
      ensures n <= 0 ==> channels == old(channels)
      ensures forall i :: 0 <= i < buffer.Length && !(offset <= i < offset + n) ==> buffer[i] == old(buffer[i])
    {
      var inbox := channels[h].inbox;
      if inbox == [] {
        if * { n := 0; } else { n := -1; }
      } else {
        n :| 0 < n <= limit && n <= |inbox|;
        for i := 0 to n
          invariant channels == old(channels)
          invariant buffer[offset..offset + i] == inbox[..i]
          invariant forall j :: 0 <= j < buffer.Length && !(offset <= j < offset + i) ==> buffer[j] == old(buffer[j])
        {
          buffer[offset + i] := inbox[i];
        }
        channels := channels[h := Read(channels[h], n)];
      }
    }

    /** `send`: any positive part of the data while the peer takes bytes, 0 or -1 afterwards. */
    method Send(h: Handle, data: seq<Byte>) returns (n: int)
      requires h in channels && data != []
      modifies this
      ensures n <= |data| && (n > 0 <==> old(channels[h].window) > 0)
      ensures n > 0 ==>
        n <= old(channels[h].window) && channels == old(channels)[h := Write(old(channels[h]), data[..n])]
      ensures n <= 0 ==> channels == old(channels)
    {
      var window := channels[h].window;
      if window == 0 {
        if * { n := 0; } else { n := -1; }
      } else {
        n :| 0 < n <= |data| && n <= window;
        channels := channels[h := Write(channels[h], data[..n])];
      }
    }

    method RecvAll(h: Handle, data: array<Byte>, size: nat) returns (ok: bool)
      requires h in channels && size <= data.Length
      modifies this, data
      ensures ok <==> CanRead(old(channels[h]), size)
      ensures channels == old(channels)[h := Read(old(channels[h]), size)]
      ensures ok ==> data[..size] == old(channels[h].inbox)[..size]
    {
      ghost var was := channels[h];
      var totalRead := 0;
      while totalRead < size
        invariant 0 <= totalRead <= size && totalRead <= |was.inbox|
        invariant channels == old(channels)[h := Read(was, totalRead)]
        invariant data[..totalRead] == was.inbox[..totalRead]
      {
        var chunkSize := if size - totalRead <= INT_MAX then size - totalRead else INT_MAX;
        ghost var before := data[..totalRead];
        var received := Recv(h, data, totalRead, chunkSize);
        if received <= 0 {
          return false;
        }
        assert data[..totalRead] == before;
        assert data[..totalRead + received] == data[..totalRead] + data[totalRead..totalRead + received];
        totalRead := totalRead + received;
      }
      return true;
    }

    method SendAll(h: Handle, data: seq<Byte>) returns (ok: bool)
      requires h in channels
      modifies this
      ensures ok <==> CanWrite(old(channels[h]), data)
      ensures channels == old(channels)[h := Write(old(channels[h]), data)]
    {
      ghost var was := channels[h];
      var totalSent := 0;
      assert was.outbox + data[..0] == was.outbox && Write(was, data[..0]) == was;
      while totalSent < |data|
        invariant 0 <= totalSent <= |data|
        invariant CanWrite(was, data[..totalSent])
        invariant channels == old(channels)[h := Write(was, data[..totalSent])]
      {
        var remaining := |data| - totalSent;
        var chunkSize := if remaining <= INT_MAX then remaining else INT_MAX;
        var chunk := data[totalSent..totalSent + chunkSize];
        var sent := Send(h, chunk);
        if sent <= 0 {
          WriteAppend(was, data[..totalSent], data[totalSent..]);
          assert data[..totalSent] + data[totalSent..] == data;
          ghost var shut := Write(was, data[..totalSent]);
          assert shut.outbox + data[totalSent..][..0] == shut.outbox;
          return false;
        }
        WriteAppend(was, data[..totalSent], chunk[..sent]);
        assert data[..totalSent] + chunk[..sent] == data[..totalSent + sent];
        totalSent := totalSent + sent;
      }
      assert data[..totalSent] == data;
      return true;
    }

    method Open(h: Handle)
      requires h !in channels
      modifies this
      ensures channels == old(channels)[h := FRESH_CHANNEL]
    {
      channels := channels[h := FRESH_CHANNEL];
    }

    method Close(h: Handle)
      modifies this
      ensures channels == old(channels) - {h}
    {
      channels := channels - {h};
    }
  }
}
