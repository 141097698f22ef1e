/** Bounded reads of a log file's tail while the logger keeps appending. */
module TailRead {
  import opened Common

  const DEFAULT_MAX_BYTES_PER_FILE: nat := 10 * 1024 * 1024
  const MAX_BYTES_PER_FILE_LIMIT: nat := 64 * 1024 * 1024

  type Byte = bv8

  datatype RequestError = ZeroMaxBytesPerFile | MaxBytesPerFileTooLarge(requested: nat, limit: nat)

  function MaxBytesPerFile(requested: Option<nat>): (r: Result<nat, RequestError>)
    ensures r.Ok? ==> 1 <= r.value <= MAX_BYTES_PER_FILE_LIMIT
    ensures r.Ok? <==> requested.None? || 1 <= requested.value <= MAX_BYTES_PER_FILE_LIMIT
    ensures r.Ok? ==> r.value == if requested.Some? then requested.value else 10_485_760
    ensures r == Err(ZeroMaxBytesPerFile) <==> requested == Some(0)
    ensures r.Err? && requested != Some(0) ==> r.error == MaxBytesPerFileTooLarge(requested.value, 67_108_864)
  {
    var value := if requested.Some? then requested.value else DEFAULT_MAX_BYTES_PER_FILE;
    if value == 0 then Err(ZeroMaxBytesPerFile)
    else if value > MAX_BYTES_PER_FILE_LIMIT then Err(MaxBytesPerFileTooLarge(value, MAX_BYTES_PER_FILE_LIMIT))
    else Ok(value)
  }

  /** The last bytes of a content, as many as the limit allows. */
  function Tail(content: seq<Byte>, limit: nat): seq<Byte> {
    content[|content| - Min(limit, |content|)..]
  }

  datatype TailBytes = TailBytes(bytes: seq<Byte>, truncated: bool, originalSize: nat)

  /** An open log file; `appends` are the writes its logger still has to make, one between any two of our steps. */
  class LogFile {
    var content: seq<Byte>
    var appends: seq<seq<Byte>>
    var position: nat

    constructor (content: seq<Byte>, appends: seq<seq<Byte>>)
      ensures this.content == content && this.appends == appends && position == 0
    {
      this.content, this.appends, position := content, appends, 0;
    }

    method Grow()
      modifies this`content, this`appends
      ensures old(content) <= content
      ensures if old(appends) == [] then appends == [] && content == old(content)
              else appends == old(appends)[1..] && content == old(content) + old(appends)[0]
    {
      if appends != [] {
        content := content + appends[0];
        appends := appends[1..];
      }
    }

    /** One read of at most `chunk` bytes; an empty result is the end of the file at that moment. */
    method Read(chunk: nat) returns (bytes: seq<Byte>)
      requires position <= |content| && chunk > 0
      modifies this`position
      ensures old(position) <= position <= |content| && bytes == content[old(position)..position]
      ensures position == old(position) <==> old(position) == |content|
    {
      var end := if position + chunk <= |content| then position + chunk else |content|;
      bytes := content[position..end];
      position := end;
    }

    /** Reads until a read comes back empty. */
    method ReadToEnd(chunk: nat) returns (bytes: seq<Byte>)
      requires position <= |content| && chunk > 0
      modifies this
      ensures old(content) <= content && position == |content|
      ensures bytes == content[old(position)..]
    {
      bytes := [];
      var more := true;
      while more
        invariant old(content) <= content && old(position) <= position <= |content|
        invariant bytes == content[old(position)..position]
        invariant !more ==> position == |content|
        decreases |appends|, more, |content| - position
      {
        Grow();
        ghost var before := position;
        var next := Read(chunk);
        assert bytes + next == content[old(position)..position];
        bytes := bytes + next;
        more := next != [];
      }
    }

    /**
     * However much is appended between asking for the size and reaching the end, the result is the
     * last `limit` bytes of what the file held when its end was reached, and `truncated` says
     * whether that leaves anything out.
     */
    method ReadTail(limit: nat, chunk: nat) returns (r: TailBytes)
      requires position == 0 && chunk > 0
      modifies this
      ensures old(content) <= content
      ensures r.bytes == Tail(content, limit)
      ensures r.truncated <==> |content| > limit
      ensures |old(content)| <= r.originalSize <= |content|
    {
      Grow();
      var originalSize := |content|;
      var truncated := originalSize > limit;
      Grow();
      if truncated {
        position := SatSub(originalSize, limit);
      }
      var bytes := ReadToEnd(chunk);
      var grewPastLimit := |bytes| > limit;
      if grewPastLimit {
        bytes := bytes[SatSub(|bytes|, limit)..];
      }
      r := TailBytes(bytes, truncated || grewPastLimit, originalSize);
    }
  }

  /** A tail is a suffix of the whole content, and as long as the limit allows. */
  lemma TailIsLongestSuffix(content: seq<Byte>, limit: nat, suffix: seq<Byte>)
    requires |suffix| <= limit && |suffix| <= |content| && content[|content| - |suffix|..] == suffix
    ensures |Tail(content, limit)| == Min(limit, |content|)
    ensures Tail(content, limit)[|Tail(content, limit)| - |suffix|..] == suffix
  {
    var tail := Tail(content, limit);
    assert tail[|tail| - |suffix|..] == content[|content| - |suffix|..];
  }
}
