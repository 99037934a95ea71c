/**
 * The streaming WAD layer of the frontend (`wad_pluq_frontend_stream.c`): no
 * WAD file is loaded locally, and a lump asked for by name is fetched from the
 * backend as a texture resource. Lump names are normalised to 16 characters.
 */
module WadStream {
  import opened CTypes
  import opened Schema
  import opened PluqFrontend

  /** Lump names are 16 characters long (`lumpinfo_t.name`). */
  const NameSize: nat := 16

  // ---------------------------------------------------------------------------
  // Name normalisation
  // ---------------------------------------------------------------------------

  /** The position of the first NUL at or after `i` within the first 16
      characters; the end of `s`, or 16, when there is none. */
  function NameEndFrom(s: seq<char>, i: nat): (n: nat)
    requires i <= NameSize && i <= |s|
    ensures i <= n <= NameSize && n <= |s|
    ensures forall k :: i <= k < n ==> s[k] != '\0'
    ensures n < NameSize && n < |s| ==> s[n] == '\0'
    decreases NameSize - i
  {
    if i == NameSize || i == |s| || s[i] == '\0' then i else NameEndFrom(s, i + 1)
  }

  /** How many characters of `s` the name has: up to the first NUL, at most 16.
      The end of the sequence counts as a NUL. */
  function NameEnd(s: seq<char>): (n: nat)
    ensures n <= NameSize && n <= |s|
    ensures forall k :: 0 <= k < n ==> s[k] != '\0'
    ensures n < NameSize && n < |s| ==> s[n] == '\0'
  {
    NameEndFrom(s, 0)
  }

  /** ASCII upper case to lower case; every other character is unchanged. */
  function LowerChar(c: char): (r: char)
    ensures 'A' <= c <= 'Z' ==> r as int == c as int + 32 && 'a' <= r <= 'z'
    ensures !('A' <= c <= 'Z') ==> r == c
  {
    if 'A' <= c <= 'Z' then (c as int + 32) as char else c
  }

  /** `W_CleanupName` as a value: the name's characters lower-cased, then NULs
      up to 16 characters (the comment above the C function speaks of space
      padding; the code writes zeros). */
  function CleanName(s: seq<char>): (r: seq<char>)
    ensures |r| == NameSize
    ensures forall i :: 0 <= i < NameEnd(s) ==> r[i] == LowerChar(s[i]) && r[i] != '\0'
    ensures forall i :: NameEnd(s) <= i < NameSize ==> r[i] == '\0'
  {
    var n := NameEnd(s);
    seq(NameSize, i requires 0 <= i < NameSize => if i < n then LowerChar(s[i]) else '\0')
  }

  lemma NameEndBound(s: seq<char>, n: nat)
    requires n <= NameSize && n <= |s|
    requires forall k :: 0 <= k < n ==> s[k] != '\0'
    requires n == NameSize || n == |s| || s[n] == '\0'
    ensures NameEnd(s) == n
  {
  }

  /** A cleaned name keeps its length: cleaning stops at the same place. */
  lemma NameEndClean(s: seq<char>)
    ensures NameEnd(CleanName(s)) == NameEnd(s)
  {
    var r, n := CleanName(s), NameEnd(s);
    NameEndBound(r, n);
  }

  /** Cleaning a cleaned name changes nothing. */
  lemma CleanNameIdempotent(s: seq<char>)
    ensures CleanName(CleanName(s)) == CleanName(s)
  {
    var r := CleanName(s);
    NameEndClean(s);
    assert forall i :: 0 <= i < NameEnd(r) ==> LowerChar(r[i]) == r[i];
  }

  /** Nothing past the first 16 characters is read. */
  lemma CleanNameFirst16(s: seq<char>)
    requires NameSize <= |s|
    ensures CleanName(s) == CleanName(s[..NameSize])
  {
    NameEndBound(s[..NameSize], NameEnd(s));
  }

  /** A string and the same string with its terminator clean to the same
      name: the terminator ends the name just as the end of the string does. */
  lemma CleanNameTerminated(name: string)
    ensures CleanName(name + ['\0']) == CleanName(name)
  {
    var n := NameEnd(name);
    NameEndBound(name + ['\0'], n);
  }

  /** `W_CleanupName`: writes exactly `output[0..16)` and reads `input` only up
      to its first NUL within 16 characters. It is safe in place: `input` and
      `output` may be the same array. */
  method CleanupName(input: array<char>, output: array<char>)
    requires NameSize <= output.Length
    requires NameSize <= input.Length || '\0' in input[..]
    modifies output
    ensures output[..NameSize] == CleanName(old(input[..]))
    ensures output[NameSize..] == old(output[NameSize..])
  {
    ghost var s := input[..];
    ghost var n := NameEnd(s);
    assert n < input.Length || n == NameSize by {
      if n == input.Length && n < NameSize {
        assert false;
      }
    }
    var i := 0;
    while i < NameSize
      invariant i <= n
      invariant forall k :: 0 <= k < i ==> output[k] == LowerChar(s[k])
      invariant forall k :: i <= k < input.Length ==> input[k] == s[k]
      invariant forall k :: NameSize <= k < output.Length ==> output[k] == old(output[k])
    {
      var c := input[i];
      if c == '\0' {
        break;
      }
      if 'A' <= c <= 'Z' {
        c := (c as int + 32) as char;
      }
      output[i] := c;
      i := i + 1;
    }
    assert i == n;
    while i < NameSize
      invariant n <= i <= NameSize
      invariant forall k :: 0 <= k < n ==> output[k] == LowerChar(s[k])
      invariant forall k :: n <= k < i ==> output[k] == '\0'
      invariant forall k :: NameSize <= k < output.Length ==> output[k] == old(output[k])
    {
      output[i] := '\0';
      i := i + 1;
    }
    assert output[..NameSize] == CleanName(s);
  }

  // ---------------------------------------------------------------------------
  // Lump access
  // ---------------------------------------------------------------------------

  /** `lumpinfo_t`. */
  datatype LumpInfo = LumpInfo(
    filepos: int32,
    disksize: int32,
    size: int32,
    lumpType: uint8,
    compression: uint8,
    name: seq<char>)

  /** The WAD globals `wad_base`, `wad_numlumps` and `wad_lumps`. */
  class WadState {
    var wadBase: Option<seq<uint8>>
    var numLumps: int32
    var lumps: Option<seq<LumpInfo>>

    constructor ()
      ensures wadBase == None && numLumps == 0 && lumps == None
    {
      wadBase, numLumps, lumps := None, 0, None;
    }

    /** `W_LoadWadFile`: nothing is loaded locally; the globals are emptied. */
    method LoadWadFile()
      modifies this
      ensures wadBase == None && numLumps == 0 && lumps == None
    {
      wadBase := None;
      numLumps := 0;
      lumps := None;
    }
  }

  /** `W_GetLumpinfo`: there is no lump directory when streaming. */
  function GetLumpinfo(name: string): (r: Option<LumpInfo>)
    ensures r == None
  {
    None
  }

  /** `W_GetLumpNum`: lumps cannot be fetched by number when streaming. */
  function GetLumpNum(num: int32): (r: Option<QPic>)
    ensures r == None
  {
    None
  }

  /** The descriptor `W_GetLumpName` makes up for a fetched lump: the cleaned
      name, the fetched size, and zero everywhere else. */
  function StreamedLumpInfo(name: string, size: nat): (info: LumpInfo)
    ensures info.name == CleanName(name) && |info.name| == NameSize
    ensures info.size == ToInt32(size)
    ensures info.filepos == 0 && info.disksize == 0 && info.lumpType == 0 && info.compression == 0
  {
    LumpInfo(0, 0, ToInt32(size), 0, 0, CleanName(name))
  }

  /** `W_GetLumpName`. It asks the frontend for a texture with id 0 by `name`
      and returns what was fetched, or nothing. `wantInfo` says whether
      `out_info` is non-null and `outInfo` is what is stored through it: `None`
      when nothing is stored, `Some(None)` for NULL (on a failed fetch, or when
      the descriptor cannot be allocated), otherwise the descriptor. The other
      parameters are the outcomes `RequestResource` depends on. */
  method GetLumpName(fe: Frontend, name: string, wantInfo: bool,
                     bufferOk: bool, sendOk: bool, reply: Option<Buffer<ResourceResponse>>,
                     allocOk: bool, infoAllocOk: bool)
    returns (data: Option<QPic>, outInfo: Option<Option<LumpInfo>>)
    modifies fe`requests
    ensures var fetched := if fe.frontendInitialized then FetchOutcome(bufferOk, sendOk, reply, allocOk) else None;
      && data == (if fetched.Some? then Some(fetched.value.pic) else None)
      && outInfo == (if !wantInfo then None
                     else if fetched.None? || !infoAllocOk then Some(None)
                     else Some(Some(StreamedLumpInfo(name, fetched.value.size))))
    ensures fe.requests == old(fe.requests) +
      (if fe.frontendInitialized && bufferOk && sendOk then [RequestFor(TextureResource, 0, Some(name))] else [])
  {
    var fetched := fe.RequestResource(TextureResource, 0, Some(name), bufferOk, sendOk, reply, allocOk);
    if fetched.None? {
      if wantInfo {
        outInfo := Some(None);
      } else {
        outInfo := None;
      }
      return None, outInfo;
    }
    if wantInfo {
      if infoAllocOk {
        var input := new char[|name| + 1](i requires 0 <= i <= |name| => if i < |name| then name[i] else '\0');
        var output := new char[NameSize](_ => '\0');
        assert input[..] == name + ['\0'];
        CleanupName(input, output);
        CleanNameTerminated(name);
        outInfo := Some(Some(LumpInfo(0, 0, ToInt32(fetched.value.size), 0, 0, output[..NameSize])));
      } else {
        outInfo := Some(None);
      }
    } else {
      outInfo := None;
    }
    data := Some(fetched.value.pic);
  }
}
