/**
 The bounded read of a reviewed import file. The file may change between reads: `FileView`
 gives its size at the moment of each read, and how much of what is there one read returns.
 */
module ImportFile {
  import opened Wrappers
  import opened Utf16

  type Byte = b: int | 0 <= b < 256

  const CHUNK := 16384

  /** Read 0 is the length check on opening; the loop makes reads 1, 2, and so on. */
  datatype FileView = FileView(content: nat -> Byte, size: nat -> nat, give: nat -> nat) {
    /** How many bytes read `n` returns at a position: none exactly at the end of the file. */
    function Delivered(n: nat, position: nat, allowed: nat): (k: nat)
      requires allowed >= 1
      ensures k <= allowed && position + k <= if position < size(n) then size(n) else position
      ensures k == 0 <==> size(n) <= position
    {
      if size(n) <= position then 0
      else
        var most := if size(n) - position < allowed then size(n) - position else allowed;
        if 1 <= give(n) <= most then give(n) else most
    }

    function Bytes(from: nat, to: nat): (s: seq<Byte>)
      requires from <= to
      ensures |s| == to - from && forall i :: 0 <= i < |s| ==> s[i] == content(from + i)
    {
      seq<Byte>(to - from, i requires 0 <= i => content(from + i))
    }
  }

  /** The file keeps the size it had when it was opened. */
  ghost predicate Steady(file: FileView) {
    forall n: nat :: file.size(n) == file.size(0)
  }

  datatype Error = EmptyOrTooLarge | TooLarge | Empty | DigestDiffers

  /** `LoadAsync` from the opened file on. `expected` is the approved digest when applying.
      It ends after at most `maxBytes + 2` reads even if the file grows forever, never holds
      more than one byte over the limit, and returns the whole file or fails. */
  method LoadAsync(file: FileView, maxBytes: nat, hash: seq<Byte> -> Text, expected: Option<Text>)
    returns (r: Result<seq<Byte>, Error>, calls: nat, peak: nat)
    ensures peak <= maxBytes + 1 && calls <= maxBytes + 2
    ensures r.Ok? ==>
              && 1 <= |r.value| <= maxBytes && r.value == file.Bytes(0, |r.value|) && file.size(calls) <= |r.value|
              && (expected.Some? ==> hash(r.value) == expected.value)
    ensures r == Err(EmptyOrTooLarge) <==> file.size(0) < 1 || file.size(0) > maxBytes
    ensures r == Err(TooLarge) ==> exists n :: 1 <= n <= calls && file.size(n) > maxBytes
    ensures r == Err(Empty) ==> calls == 1 && file.size(1) == 0
    ensures r == Err(DigestDiffers) ==> expected.Some? && exists k :: 1 <= k <= maxBytes && hash(file.Bytes(0, k)) != expected.value
    ensures Steady(file) && 1 <= file.size(0) <= maxBytes ==>
              var all := file.Bytes(0, file.size(0));
              r == if expected.None? || hash(all) == expected.value then Ok(all) else Err(DigestDiffers)
  {
    calls, peak := 0, 0;
    if file.size(0) < 1 || file.size(0) > maxBytes {
      return Err(EmptyOrTooLarge), calls, peak;
    }
    var memory: seq<Byte> := [];
    while true
      invariant |memory| <= maxBytes && peak == |memory|
      invariant memory == file.Bytes(0, |memory|)
      invariant calls <= |memory| && (memory != [] ==> calls >= 1)
      invariant Steady(file) ==> |memory| <= file.size(0)
      decreases maxBytes - |memory|
    {
      var allowed := if CHUNK <= maxBytes + 1 - |memory| then CHUNK else maxBytes + 1 - |memory|;
      if allowed <= 0 {
        assert false;   // one byte over the limit is still allowed, so this check never fires
      }
      calls := calls + 1;
      var read := file.Delivered(calls, |memory|, allowed);
      if read == 0 {
        break;
      }
      memory := memory + file.Bytes(|memory|, |memory| + read);
      peak := |memory|;
      if |memory| > maxBytes {
        return Err(TooLarge), calls, peak;
      }
    }
    if |memory| == 0 {
      return Err(Empty), calls, peak;
    }
    if expected.Some? && hash(memory) != expected.value {
      return Err(DigestDiffers), calls, peak;
    }
    return Ok(memory), calls, peak;
  }
}
