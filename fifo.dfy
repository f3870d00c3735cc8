/**
 * The hand-written bounded FIFO channel of the fifo example: a ring buffer
 * of ten characters with a `head` index and an element count, and the
 * producer that fills it from a NUL-terminated string.
 *
 * A write on a full buffer and a read on an empty one suspend the caller
 * until the other side has acted; sequentially that is a precondition of the
 * step that finally runs.
 */
module FifoExample {

  /** `enum el { max = 10 }`: the number of slots. */
  const Max: int := 10

  /** The `n` queued characters of a ring buffer `buf` whose oldest element
      sits at `head`, oldest first: the i-th one is i slots after `head`,
      wrapping around. */
  function Window(buf: seq<char>, head: int, n: int): (w: seq<char>)
    requires |buf| == Max && 0 <= head < Max && 0 <= n <= Max
    ensures |w| == n
  {
    seq(n, i => buf[(head + i) % Max])
  }

  /** The i-th queued character is stored i slots after the head, wrapping around. */
  lemma WindowAt(buf: seq<char>, head: int, n: int, i: int)
    requires |buf| == Max && 0 <= head < Max && 0 <= n <= Max
    requires 0 <= i < n
    ensures Window(buf, head, n)[i] == buf[(head + i) % Max]
  {
  }

  /** Stepping one slot round the ring and then i - 1 more is stepping i. */
  lemma RingStep(head: int, i: int)
    requires 0 <= head < Max && 0 < i <= Max
    ensures ((head + 1) % Max + (i - 1)) % Max == (head + i) % Max
  {
    if head + 1 == Max {
      assert (head + 1) % Max == 0 && (head + i) - Max == i - 1;
    }
  }

  /** Fewer than `Max` steps round the ring never land on the same slot twice. */
  lemma SlotsDistinct(head: int, i: int, j: int)
    requires 0 <= head < Max && 0 <= i < j < Max
    ensures (head + i) % Max != (head + j) % Max
  {
    if head + j < Max {
      assert (head + i) % Max == head + i && (head + j) % Max == head + j;
    } else if head + i >= Max {
      assert (head + i) % Max == head + i - Max && (head + j) % Max == head + j - Max;
    } else {
      assert (head + i) % Max == head + i && (head + j) % Max == head + j - Max;
    }
  }

  /** Advancing the head by one slot drops the oldest queued character. */
  lemma WindowAdvance(buf: seq<char>, head: int, n: int)
    requires |buf| == Max && 0 <= head < Max && 0 < n <= Max
    ensures Window(buf, (head + 1) % Max, n - 1) == Window(buf, head, n)[1..]
  {
    forall i | 0 <= i < n - 1
      ensures Window(buf, (head + 1) % Max, n - 1)[i] == Window(buf, head, n)[1..][i]
    {
      RingStep(head, i + 1);
    }
  }

  /** Slots outside the window do not affect its contents. */
  lemma WindowFrame(buf: seq<char>, head: int, n: int, k: int, c: char)
    requires |buf| == Max && 0 <= head < Max && 0 <= n < Max
    requires 0 <= k < Max && k == (head + n) % Max
    ensures Window(buf[k := c], head, n) == Window(buf, head, n)
  {
    forall i | 0 <= i < n
      ensures Window(buf[k := c], head, n)[i] == Window(buf, head, n)[i]
    {
      SlotsDistinct(head, i, n);
    }
  }

  /** Storing `c` in the slot just past the window appends `c` at the tail. */
  lemma WindowWrite(buf: seq<char>, head: int, n: int, c: char)
    requires |buf| == Max && 0 <= head < Max && 0 <= n < Max
    ensures Window(buf[(head + n) % Max := c], head, n + 1) == Window(buf, head, n) + [c]
  {
    var buf' := buf[(head + n) % Max := c];
    forall i | 0 <= i < n + 1
      ensures Window(buf', head, n + 1)[i] == (Window(buf, head, n) + [c])[i]
    {
      if i < n {
        SlotsDistinct(head, i, n);
      }
    }
  }

  class Fifo {
    const data: array<char>
    var elementsNum: int
    var head: int

    /** The representation invariant the ring buffer keeps. */
    ghost predicate Valid()
      reads this
    {
      data.Length == Max && 0 <= elementsNum <= Max && 0 <= head < Max
    }

    /** The queued characters, oldest first. */
    ghost function Contents(): seq<char>
      reads this, data
      requires Valid()
    {
      Window(data[..], head, elementsNum)
    }

    constructor ()
      ensures Valid() && fresh(data)
      ensures elementsNum == 0 && head == 0 && Contents() == []
    {
      data := new char[Max];
      elementsNum, head := 0, 0;
    }

    /** Stores `c` at the slot after the last queued element. */
    method Write(c: char)
      requires Valid() && elementsNum < Max
      modifies this, data
      ensures Valid()
      ensures head == old(head) && elementsNum == old(elementsNum) + 1
      ensures data[..] == old(data[..])[(old(head) + old(elementsNum)) % Max := c]
      ensures Contents() == old(Contents()) + [c]
    {
      data[(head + elementsNum) % Max] := c;
      assert data[..] == old(data[..])[(head + elementsNum) % Max := c];
      WindowWrite(old(data[..]), head, elementsNum, c);
      elementsNum := elementsNum + 1;
    }

    /** Takes the character at `head` and advances `head` around the ring. */
    method Read() returns (c: char)
      requires Valid() && elementsNum > 0
      modifies this
      ensures Valid()
      ensures c == old(data[head]) && c == old(Contents())[0]
      ensures elementsNum == old(elementsNum) - 1 && head == (old(head) + 1) % Max
      ensures data[..] == old(data[..])
      ensures Contents() == old(Contents())[1..]
    {
      WindowAdvance(data[..], head, elementsNum);
      c := data[head];
      elementsNum := elementsNum - 1;
      head := (head + 1) % Max;
    }

    /** Empties the buffer; the slots keep their old characters. */
    method Reset()
      requires Valid()
      modifies this
      ensures Valid() && elementsNum == 0 && head == 0
      ensures Contents() == []
      ensures data[..] == old(data[..])
    {
      elementsNum, head := 0, 0;
    }

    method Size() returns (n: int)
      requires Valid()
      ensures n == |Contents()| && 0 <= n <= Max
    {
      n := elementsNum;
    }
  }

  /** A write followed by a read returns the oldest character and leaves the
      number of queued characters as it was. */
  method WriteThenRead(f: Fifo, c: char) returns (d: char)
    requires f.Valid() && f.elementsNum < Max
    modifies f, f.data
    ensures f.Valid() && f.elementsNum == old(f.elementsNum)
    ensures d == (old(f.Contents()) + [c])[0]
    ensures f.Contents() == (old(f.Contents()) + [c])[1..]
  {
    f.Write(c);
    d := f.Read();
  }

  /** The characters of a C string: everything before the first NUL. */
  function CString(s: seq<char>): (r: seq<char>)
    requires '\0' in s
    ensures |r| < |s| && r == s[..|r|] && s[|r|] == '\0'
    ensures '\0' !in r
  {
    if s[0] == '\0' then [] else [s[0]] + CString(s[1..])
  }

  /** Only the NUL that ends a C string stops a scan over its characters. */
  lemma CStringEnd(s: seq<char>, p: int)
    requires '\0' in s && 0 <= p <= |CString(s)| && s[p] == '\0'
    ensures p == |CString(s)|
  {
  }

  /**
   * A write as the producer sees it: on a full buffer it waits until the
   * consumer has read one character (returned in `taken`), then stores `c`.
   */
  method WriteWaiting(f: Fifo, c: char) returns (taken: seq<char>)
    requires f.Valid()
    modifies f, f.data
    ensures f.Valid() && |taken| <= 1
    ensures taken + f.Contents() == old(f.Contents()) + [c]
  {
    taken := [];
    var n := f.Size();
    if n == Max {
      var d := f.Read();
      taken := [d];
    }
    ghost var queued := f.Contents();
    f.Write(c);
    assert taken + f.Contents() == (taken + queued) + [c];
  }

  /**
   * `producer_main`: resets the channel, then writes the string one
   * character at a time, advancing the pointer until it meets the NUL.
   * The characters the consumer had to take to make room are returned in
   * `consumed`; `written` is the sequence of `write` calls.
   */
  method ProducerMain(f: Fifo, str: seq<char>) returns (written: seq<char>, consumed: seq<char>)
    requires f.Valid() && '\0' in str
    modifies f, f.data
    ensures f.Valid()
    ensures written == CString(str)
    ensures consumed + f.Contents() == written
  {
    ghost var text := CString(str);
    f.Reset();
    written, consumed := [], [];
    var p := 0;
    while str[p] != '\0'
      invariant 0 <= p <= |text|
      invariant f.Valid()
      invariant written == str[..p]
      invariant consumed + f.Contents() == written
      decreases |text| - p
    {
      ghost var queued := f.Contents();
      var taken := WriteWaiting(f, str[p]);
      assert taken + f.Contents() == queued + [str[p]];
      assert (consumed + taken) + f.Contents() == consumed + (taken + f.Contents());
      assert (consumed + taken) + f.Contents() == (consumed + queued) + [str[p]];
      assert str[..p + 1] == str[..p] + [str[p]];
      consumed := consumed + taken;
      written := written + [str[p]];
      p := p + 1;
    }
    CStringEnd(str, p);
  }
}
