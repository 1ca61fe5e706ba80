/** A byte stream with a read/write cursor: the `MemoryStream` the proxy
    buffers the body in, and the inbound request body it copies from. */
module Streams {
  import opened Platform

  /** The bytes of a memory stream after writing `data` at position `at`:
      the bytes before `at` are kept, `data` replaces what it covers, and
      whatever lies past its end is kept. */
  function Overwrite(contents: seq<byte>, at: nat, data: seq<byte>): (r: seq<byte>)
    requires at <= |contents|
    ensures |r| == if at + |data| < |contents| then |contents| else at + |data|
    ensures r[..at] == contents[..at]
    ensures r[at..at + |data|] == data
    ensures at + |data| < |contents| ==> r[at + |data|..] == contents[at + |data|..]
  {
    if at + |data| < |contents| then contents[..at] + data + contents[at + |data|..]
    else contents[..at] + data
  }

  class Stream {
    /** Everything the stream holds. */
    var contents: seq<byte>
    /** `Stream.Position`. */
    var pos: nat
    /** `Stream.CanSeek`. */
    const canSeek: bool

    ghost predicate Valid()
      reads this
    {
      pos <= |contents|
    }

    /** The bytes a reader gets from the cursor to the end. */
    function Remaining(): (r: seq<byte>)
      reads this
      requires Valid()
      ensures |r| == |contents| - pos
    {
      contents[pos..]
    }

    /** `new MemoryStream()`: empty, seekable, cursor at 0. */
    constructor Memory()
      ensures Valid() && contents == [] && pos == 0 && canSeek
    {
      contents, pos, canSeek := [], 0, true;
    }

    /** A stream the host hands over, such as `HttpRequest.Body`. */
    constructor Incoming(body: seq<byte>, seekable: bool)
      ensures Valid() && contents == body && pos == 0 && canSeek == seekable
    {
      contents, pos, canSeek := body, 0, seekable;
    }

    /** `MemoryStream.Write`: overwrite at the cursor and move past the data. */
    method Write(data: seq<byte>)
      requires Valid()
      modifies this
      ensures Valid()
      ensures contents == Overwrite(old(contents), old(pos), data)
      ensures pos == old(pos) + |data|
    {
      contents := Overwrite(contents, pos, data);
      pos := pos + |data|;
    }

    /** Read until the end: the cursor ends at the end of the contents. */
    method ReadToEnd() returns (data: seq<byte>)
      requires Valid()
      modifies this
      ensures Valid() && contents == old(contents)
      ensures data == old(Remaining()) && pos == |contents|
    {
      data := contents[pos..];
      pos := |contents|;
    }

    /** `Position = 0`, which only a seekable stream allows. */
    method Rewind()
      requires Valid() && canSeek
      modifies this
      ensures Valid() && contents == old(contents) && pos == 0
    {
      pos := 0;
    }

    /** `CopyToAsync(dest)`: read this stream to its end and write what was
        read into `dest` at its cursor. */
    method CopyTo(dest: Stream)
      requires Valid() && dest.Valid() && dest != this
      modifies this, dest
      ensures Valid() && contents == old(contents) && pos == |contents|
      ensures dest.Valid()
      ensures dest.contents == Overwrite(old(dest.contents), old(dest.pos), old(Remaining()))
      ensures dest.pos == old(dest.pos) + |old(Remaining())|
    {
      var data := ReadToEnd();
      dest.Write(data);
    }
  }
}
