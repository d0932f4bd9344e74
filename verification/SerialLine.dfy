/** The serial module's two buffers, as the arrays, offsets and counts that the driver keeps. */
module SerialLine {
  import opened Defs
  import opened KernelSpec

  class Line {
    const inbuffer: array<Byte>
    var inlast: nat
    var innext: nat
    var incount: nat
    const outbuffer: array<Byte>
    var outlast: nat
    var outnext: nat
    var outcount: nat
    var sending: bool
    /** The bytes handed to the transmitter register so far. */
    var wire: seq<Byte>

    ghost predicate Valid()
      reads this
    {
      && inbuffer.Length == BUF_SIZE && outbuffer.Length == BUF_SIZE && inbuffer != outbuffer
      && innext + incount == inlast <= BUF_SIZE
      && outlast <= BUF_SIZE
      && (outcount > 0 || outlast < BUF_SIZE ==> outnext + outcount == outlast)
    }

    ghost function In(): InBuf
      requires Valid()
      reads this, inbuffer
    {
      InBuf(inbuffer[innext..inlast], inlast)
    }

    ghost function Out(): OutBuf
      requires Valid()
      reads this, outbuffer
    {
      OutBuf(if outcount == 0 then [] else outbuffer[outnext..outlast], outlast, sending)
    }

    /** `_sio_init` */
    constructor ()
      ensures Valid() && fresh(inbuffer) && fresh(outbuffer)
      ensures In() == InBuf([], 0) && Out() == OutBuf([], 0, false) && wire == []
    {
      inbuffer := new Byte[BUF_SIZE];
      outbuffer := new Byte[BUF_SIZE];
      inlast, innext, incount := 0, 0, 0;
      outlast, outnext, outcount := 0, 0, 0;
      sending, wire := false, [];
    }

    method ReadC() returns (ch: int)
      requires Valid()
      modifies this
      ensures Valid()
      ensures old(In()).pending == [] ==> ch == -1 && In() == old(In())
      ensures old(In()).pending != [] ==> ch == old(In()).pending[0] && In() == ReadChar(old(In()))
      ensures Out() == old(Out()) && wire == old(wire)
    {
      ch := -1;
      if incount > 0 {
        ch := inbuffer[innext];
        innext := innext + 1;
        incount := incount - 1;
        if incount < 1 {
          inlast, innext := 0, 0;
        }
      }
    }

    /** The buffering part of the receive interrupt; false when it would store past the buffer. */
    method Store(ch: Byte) returns (ok: bool)
      requires Valid()
      modifies this, inbuffer
      ensures Valid()
      ensures ok == (BUF_SIZE <= |old(In()).pending| || old(In()).last < BUF_SIZE)
      ensures In() == if |old(In()).pending| < BUF_SIZE && ok then InBuf(old(In()).pending + [ch], old(In()).last + 1)
        else old(In())
      ensures Out() == old(Out()) && wire == old(wire)
    {
      ok := true;
      if incount < BUF_SIZE {
        if inlast == BUF_SIZE {
          return false;
        }
        inbuffer[inlast] := ch;
        inlast := inlast + 1;
        incount := incount + 1;
      }
    }

    /** `_sio_writec` below its LF mapping; false when it would store past the buffer. */
    method WriteByte(b: Byte) returns (ok: bool)
      requires Valid()
      modifies this, outbuffer
      ensures Valid() && In() == old(In())
      ensures ok == (!old(sending) || old(outlast) < BUF_SIZE)
      ensures !old(sending) ==> Out() == old(Out()).(sending := true) && wire == old(wire) + [b]
      ensures old(sending) && ok ==>
        Out() == OutBuf(old(Out()).pending + [b], old(outlast) + 1, true) && wire == old(wire)
    {
      ok := true;
      if sending {
        if outlast == BUF_SIZE {
          return false;
        }
        outbuffer[outlast] := b;
        outlast := outlast + 1;
        outcount := outcount + 1;
        return;
      }
      sending := true;
      wire := wire + [b];
    }

    /** The transmit interrupt. */
    method Transmit()
      requires Valid()
      modifies this
      ensures Valid() && In() == old(In())
      ensures if old(sending) && old(Out()).pending != [] then
                wire == old(wire) + [old(Out()).pending[0]] && Out() == old(Out()).(pending := old(Out()).pending[1..])
              else
                wire == old(wire) && Out() == OutBuf([], 0, false)
    {
      if sending && outcount > 0 {
        wire := wire + [outbuffer[outnext]];
        outnext := outnext + 1;
        if outnext >= BUF_SIZE {
          outnext := 0;
        }
        outcount := outcount - 1;
      } else {
        outcount := 0;
        outlast, outnext := 0, 0;
        sending := false;
      }
    }
  }
}
