/**
  The deterministic vector-id scheme of the indexing assets:
  `_get_index_id_from_video_id(video_id, chunk_index=0)` formats
  `"{video_id}#chunk{chunk_index}"`, with the index written in decimal as
  Python's `str` writes a non-negative integer.
 */
module VectorIds {
  import opened Wrappers

  /** The default `chunk_index`; the dedup key of a video uses it. */
  const DefaultChunkIndex: nat := 0

  /** The text between a video id and the chunk index. */
  const ChunkMarker: string := "#chunk"

  predicate IsDigit(c: char)
  {
    '0' <= c <= '9'
  }

  predicate AllDigits(s: string)
  {
    forall i :: 0 <= i < |s| ==> IsDigit(s[i])
  }

  function DigitChar(d: nat): (c: char)
    requires d < 10
    ensures IsDigit(c) && c as int - '0' as int == d
  {
    ('0' as int + d) as char
  }

  /** The decimal numeral of `n`: non-empty, all digits, and without a leading zero. */
  function Decimal(n: nat): (s: string)
    ensures s != [] && AllDigits(s)
    ensures s[0] == '0' <==> n == 0
    ensures s[0] == '0' ==> |s| == 1
  {
    if n < 10 then [DigitChar(n)] else Decimal(n / 10) + [DigitChar(n % 10)]
  }

  /** The number a string of digits denotes. */
  function DecimalValue(s: string): nat
    requires AllDigits(s)
  {
    if s == [] then 0
    else 10 * DecimalValue(s[..|s| - 1]) + (s[|s| - 1] as int - '0' as int)
  }

  /** Reading back the numeral of `n` gives `n`. */
  lemma {:induction false} DecimalRoundTrip(n: nat)
    ensures DecimalValue(Decimal(n)) == n
  {
    var s := Decimal(n);
    if n >= 10 {
      assert s[..|s| - 1] == Decimal(n / 10);
      DecimalRoundTrip(n / 10);
    }
  }

  /** `_get_index_id_from_video_id`. */
  function ChunkId(videoId: string, chunkIndex: nat): string
  {
    videoId + ChunkMarker + Decimal(chunkIndex)
  }

  /** The id whose presence marks a video as already indexed: the id of its chunk 0. */
  function DedupKey(videoId: string): (key: string)
    ensures key == videoId + "#chunk0"
  {
    ChunkId(videoId, DefaultChunkIndex)
  }

  /** The position of the last occurrence of `c` in `s`, if any. */
  function LastIndexOf(s: string, c: char): (r: Option<nat>)
    ensures r.None? <==> c !in s
    ensures r.Some? ==> r.value < |s| && s[r.value] == c
    ensures r.Some? ==> forall j :: r.value < j < |s| ==> s[j] != c
  {
    if s == [] then None
    else if s[|s| - 1] == c then Some(|s| - 1)
    else
      assert forall j :: 0 <= j < |s| - 1 ==> s[..|s| - 1][j] == s[j];
      LastIndexOf(s[..|s| - 1], c)
  }

  /**
    The inverse of `ChunkId`: splits an id at its last '#', and accepts it only
    when the rest is the marker followed by a canonical decimal numeral.
   */
  function ParseChunkId(id: string): Option<(string, nat)>
  {
    match LastIndexOf(id, '#')
    case None => None
    case Some(k) =>
      var tail := id[k + 1..];
      if |tail| >= 5 && tail[..5] == "chunk" then
        var numeral := tail[5..];
        if AllDigits(numeral) && Decimal(DecimalValue(numeral)) == numeral
        then Some((id[..k], DecimalValue(numeral)))
        else None
      else None
  }

  /** Every id the scheme produces parses back to its video id and chunk index. */
  lemma ParseChunkIdRoundTrip(videoId: string, chunkIndex: nat)
    ensures ParseChunkId(ChunkId(videoId, chunkIndex)) == Some((videoId, chunkIndex))
  {
    var id := ChunkId(videoId, chunkIndex);
    var d := Decimal(chunkIndex);
    var k := |videoId|;
    assert id[k] == '#';
    forall j | k < j < |id| ensures id[j] != '#' {
      if j < k + |ChunkMarker| {
        assert id[j] == ChunkMarker[j - k];
      } else {
        assert id[j] == d[j - k - |ChunkMarker|];
      }
    }
    var r := LastIndexOf(id, '#');
    assert r.Some?;
    assert r.value == k;
    assert id[k + 1..] == "chunk" + d;
    assert id[k + 1..][5..] == d;
    assert id[..k] == videoId;
    DecimalRoundTrip(chunkIndex);
  }

  /** Exactly the ids the scheme produces parse, and each parses to its origin. */
  lemma ParseChunkIdSound(id: string, videoId: string, chunkIndex: nat)
    ensures ParseChunkId(id) == Some((videoId, chunkIndex)) <==> id == ChunkId(videoId, chunkIndex)
  {
    if id == ChunkId(videoId, chunkIndex) {
      ParseChunkIdRoundTrip(videoId, chunkIndex);
    }
    if ParseChunkId(id) == Some((videoId, chunkIndex)) {
      ParsedIdIsChunkId(id, videoId, chunkIndex);
    }
  }

  lemma ParsedIdIsChunkId(id: string, videoId: string, chunkIndex: nat)
    requires ParseChunkId(id) == Some((videoId, chunkIndex))
    ensures id == ChunkId(videoId, chunkIndex)
  {
    var k := LastIndexOf(id, '#').value;
    var digits := id[k + 1..];
    var numeral := digits[5..];
    assert id[..k] == videoId;
    assert DecimalValue(numeral) == chunkIndex;
    assert Decimal(chunkIndex) == numeral;
    assert digits == digits[..5] + numeral;
    assert digits[..5] == "chunk";
    assert id == id[..k] + [id[k]] + digits;
    assert [id[k]] + "chunk" == ChunkMarker;
  }

  /**
    Vector ids are unique: two ids are equal exactly when both the video ids and
    the chunk indices are. This holds for all video ids, including ones that
    contain '#', because the marker and the numeral contain none.
   */
  lemma ChunkIdInjective(v1: string, i1: nat, v2: string, i2: nat)
    ensures ChunkId(v1, i1) == ChunkId(v2, i2) <==> v1 == v2 && i1 == i2
  {
    ParseChunkIdRoundTrip(v1, i1);
    ParseChunkIdRoundTrip(v2, i2);
  }
}
