/** Small value types shared by every part of the model: bytes, optional and
    fallible values, the in-order concatenation of chunks, string joining, and
    the frames a client sends over its streaming connection. */
module Basics {

  /** One octet of audio. */
  newtype Byte = b: int | 0 <= b < 256

  datatype Option<T> = None | Some(value: T)

  /** The outcome of a call into a service the model cannot see: it either
      returns a value or raises. */
  datatype Fallible<T> = Ok(value: T) | Fails

  /** What a control frame's JSON text decodes to: an object whose "type" is
      "stop", any other decodable object, or text that does not decode to an
      object at all (so reading its "type" raises). */
  datatype ControlMessage = StopMessage | OtherMessage | MalformedMessage

  /** One message received from the client's websocket. */
  datatype Inbound =
    | Frame(bytes: seq<Byte>)
    | Control(message: ControlMessage)
    | Disconnected

  /** The concatenation of `chunks`, in order. */
  function Flatten<T>(chunks: seq<seq<T>>): seq<T>
  {
    if chunks == [] then [] else Flatten(chunks[..|chunks| - 1]) + chunks[|chunks| - 1]
  }

  /** Concatenation regroups freely. */
  lemma ConcatAssociates<T>(a: seq<T>, b: seq<T>, c: seq<T>)
    ensures a + b + c == a + (b + c)
  {
  }

  lemma FlattenSnoc<T>(chunks: seq<seq<T>>, c: seq<T>)
    ensures Flatten(chunks + [c]) == Flatten(chunks) + c
  {
    assert (chunks + [c])[..|chunks|] == chunks;
  }

  lemma {:induction false} FlattenConcat<T>(a: seq<seq<T>>, b: seq<seq<T>>)
    ensures Flatten(a + b) == Flatten(a) + Flatten(b)
    decreases |b|
  {
    if b == [] {
      assert a + b == a;
    } else {
      var front := b[..|b| - 1];
      var last := b[|b| - 1];
      assert b == front + [last];
      assert a + b == (a + front) + [last];
      FlattenSnoc(a + front, last);
      FlattenConcat(a, front);
      FlattenSnoc(front, last);
    }
  }

  /** `parts` with `sep` between neighbours, as Python's `sep.join(parts)`. */
  function Join(parts: seq<string>, sep: string): string
  {
    if |parts| == 0 then ""
    else if |parts| == 1 then parts[0]
    else Join(parts[..|parts| - 1], sep) + sep + parts[|parts| - 1]
  }

  /** Joining one more part extends the joined text by the separator and the part. */
  lemma JoinSnoc(parts: seq<string>, p: string, sep: string)
    ensures Join(parts + [p], sep) == if parts == [] then p else Join(parts, sep) + sep + p
  {
    assert (parts + [p])[..|parts|] == parts;
  }

  /** A non-empty join starts with its first part. */
  lemma {:induction false} JoinStartsWithFirst(parts: seq<string>, sep: string)
    requires |parts| > 0
    ensures parts[0] <= Join(parts, sep)
    decreases |parts|
  {
    if |parts| > 1 {
      JoinStartsWithFirst(parts[..|parts| - 1], sep);
    }
  }
}
