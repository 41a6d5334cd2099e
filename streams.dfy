/** `VideoInfo`: the summary of an ffprobe report the converter logs before converting.
    The report arrives already parsed; each stream is a record whose `codec_type` field
    may be absent. */
module Streams {
  import opened Wrappers

  /** One stream record: its `codec_type`, if present, and its other fields. */
  datatype Stream = Stream(codecType: Option<string>, fields: map<string, string>)

  /** The parsed ffprobe document: its "streams" and "format" entries, each possibly absent. */
  datatype ProbeData = ProbeData(streams: Option<seq<Stream>>, format: Option<map<string, string>>)

  /** The empty record `{}` the primary-stream getters return when there is no such stream. */
  const EmptyStream: Stream := Stream(None, map[])

  const Unknown: string := "unknown"

  /** The five keys the counts start with, each at zero. */
  const StandardTypes: set<string> := {"video", "audio", "subtitle", "data", Unknown}

  const InitialCounts: map<string, nat> := map["video" := 0, "audio" := 0, "subtitle" := 0, "data" := 0, Unknown := 0]

  /** `stream.get("codec_type", "unknown")`. */
  function TypeOf(s: Stream): string {
    s.codecType.GetOr(Unknown)
  }

  /** `counts.get(t, 0)`. */
  function Get(counts: map<string, nat>, t: string): nat {
    if t in counts then counts[t] else 0
  }

  /** The number of streams of type `t`: the reference the counts are checked against. */
  function CountOf(streams: seq<Stream>, t: string): nat {
    if |streams| == 0 then 0
    else CountOf(streams[..|streams| - 1], t) + (if TypeOf(streams[|streams| - 1]) == t then 1 else 0)
  }

  /** The types that occur among `streams`. */
  function TypesIn(streams: seq<Stream>): set<string> {
    if |streams| == 0 then {} else TypesIn(streams[..|streams| - 1]) + {TypeOf(streams[|streams| - 1])}
  }

  /** A type that does not occur has count zero. */
  lemma {:induction false} CountOfAbsent(streams: seq<Stream>, t: string)
    requires t !in TypesIn(streams)
    ensures CountOf(streams, t) == 0
  {
    if |streams| > 0 { CountOfAbsent(streams[..|streams| - 1], t); }
  }

  /** A type occurs exactly when some stream has it. */
  lemma {:induction false} TypesInMeans(streams: seq<Stream>, t: string)
    ensures t in TypesIn(streams) <==> exists i :: 0 <= i < |streams| && TypeOf(streams[i]) == t
  {
    if |streams| > 0 {
      var prefix := streams[..|streams| - 1];
      TypesInMeans(prefix, t);
      if t in TypesIn(prefix) {
        var i :| 0 <= i < |prefix| && TypeOf(prefix[i]) == t;
        assert streams[i] == prefix[i];
      }
      if exists i :: 0 <= i < |streams| && TypeOf(streams[i]) == t {
        var i :| 0 <= i < |streams| && TypeOf(streams[i]) == t;
        if i < |prefix| { assert prefix[i] == streams[i]; }
      }
    }
  }

  lemma InitialCountsFacts()
    ensures InitialCounts.Keys == StandardTypes
    ensures forall t :: t in InitialCounts ==> InitialCounts[t] == 0
  {
  }

  /** The counts the constructor's loop builds after seeing `streams`: it starts from the five
      zeros and adds one under each stream's type. */
  function Tally(streams: seq<Stream>): (r: map<string, nat>)
    ensures StandardTypes <= r.Keys
    ensures forall t :: t in r ==> r[t] <= |streams|
  {
    if |streams| == 0 then InitialCounts
    else
      var m := Tally(streams[..|streams| - 1]);
      var t := TypeOf(streams[|streams| - 1]);
      m[t := Get(m, t) + 1]
  }

  /** Every standard type and every type that occurs is a key of the counts, and each key
      holds the number of streams of that type. */
  lemma {:induction false} TallyCounts(streams: seq<Stream>)
    ensures Tally(streams).Keys == StandardTypes + TypesIn(streams)
    ensures forall t :: t in Tally(streams) ==> Tally(streams)[t] == CountOf(streams, t)
  {
    if |streams| == 0 {
      InitialCountsFacts();
    } else {
      var prefix := streams[..|streams| - 1];
      var t := TypeOf(streams[|streams| - 1]);
      TallyCounts(prefix);
      if t !in Tally(prefix) { CountOfAbsent(prefix, t); }
    }
  }

  /** One loop step: the table for one more stream is the previous table with one added
      under that stream's type. */
  lemma TallyStep(prefix: seq<Stream>, x: Stream)
    ensures Tally(prefix + [x]) == Tally(prefix)[TypeOf(x) := Get(Tally(prefix), TypeOf(x)) + 1]
  {
    assert (prefix + [x])[..|prefix|] == prefix;
  }

  /** The streams whose `codec_type` is exactly `t`, in their original order
      (`[s for s in streams if s.get("codec_type") == t]`). */
  function StreamsOfType(streams: seq<Stream>, t: string): (r: seq<Stream>)
    ensures |r| <= |streams|
    ensures forall s :: s in r <==> s in streams && s.codecType == Some(t)
  {
    if |streams| == 0 then []
    else (if streams[0].codecType == Some(t) then [streams[0]] else []) + StreamsOfType(streams[1..], t)
  }

  /** The first stream of type `t`, or the empty record when there is none. */
  function Primary(streams: seq<Stream>, t: string): (r: Stream)
    ensures r == EmptyStream <==> forall i :: 0 <= i < |streams| ==> streams[i].codecType != Some(t)
    ensures r != EmptyStream ==>
      exists i :: 0 <= i < |streams| && streams[i] == r && r.codecType == Some(t) &&
        forall j :: 0 <= j < i ==> streams[j].codecType != Some(t)
  {
    var matching := StreamsOfType(streams, t);
    FirstOfType(streams, t);
    if |matching| > 0 then matching[0] else EmptyStream
  }

  lemma {:induction false} FirstOfType(streams: seq<Stream>, t: string)
    ensures |StreamsOfType(streams, t)| == 0 <==> forall i :: 0 <= i < |streams| ==> streams[i].codecType != Some(t)
    ensures |StreamsOfType(streams, t)| > 0 ==>
      exists i :: 0 <= i < |streams| && streams[i] == StreamsOfType(streams, t)[0] && streams[i].codecType == Some(t) &&
        forall j :: 0 <= j < i ==> streams[j].codecType != Some(t)
  {
    if |streams| > 0 {
      if streams[0].codecType != Some(t) {
        FirstOfType(streams[1..], t);
        if |StreamsOfType(streams[1..], t)| > 0 {
          var i :| 0 <= i < |streams[1..]| && streams[1..][i] == StreamsOfType(streams[1..], t)[0] && streams[1..][i].codecType == Some(t) &&
            forall j :: 0 <= j < i ==> streams[1..][j].codecType != Some(t);
          assert streams[i + 1] == streams[1..][i];
          forall j | 0 <= j < i + 1 ensures streams[j].codecType != Some(t) {
            if j > 0 { assert streams[j] == streams[1..][j - 1]; }
          }
        } else {
          forall i | 0 <= i < |streams| ensures streams[i].codecType != Some(t) {
            if i > 0 { assert streams[i] == streams[1..][i - 1]; }
          }
        }
      }
    }
  }

  lemma {:induction false} StreamsOfTypeAppend(prefix: seq<Stream>, x: Stream, t: string)
    ensures StreamsOfType(prefix + [x], t) == StreamsOfType(prefix, t) + (if x.codecType == Some(t) then [x] else [])
  {
    if |prefix| > 0 {
      assert (prefix + [x])[1..] == prefix[1..] + [x];
      StreamsOfTypeAppend(prefix[1..], x, t);
    }
  }

  /** `get_video_streams` and `get_audio_streams` return as many streams as the counts hold
      for that type: the counts and the filters agree for every type except "unknown", whose
      count also takes in the streams with no `codec_type` at all. */
  lemma {:induction false} FilterMatchesCount(streams: seq<Stream>, t: string)
    requires t != Unknown
    ensures |StreamsOfType(streams, t)| == CountOf(streams, t)
  {
    if |streams| > 0 {
      var prefix := streams[..|streams| - 1];
      var x := streams[|streams| - 1];
      assert streams == prefix + [x];
      FilterMatchesCount(prefix, t);
      StreamsOfTypeAppend(prefix, x, t);
      assert TypeOf(x) == t <==> x.codecType == Some(t);
    }
  }

  /** `sum(counts[k] for k in keys)`, a missing key adding nothing. */
  function SumOver(keys: seq<string>, counts: map<string, nat>): nat {
    if |keys| == 0 then 0 else Get(counts, keys[0]) + SumOver(keys[1..], counts)
  }

  lemma {:induction false} SumOverBump(keys: seq<string>, counts: map<string, nat>, t: string)
    requires t in keys
    requires forall i, j :: 0 <= i < j < |keys| ==> keys[i] != keys[j]
    ensures SumOver(keys, counts[t := Get(counts, t) + 1]) == SumOver(keys, counts) + 1
  {
    var bumped := counts[t := Get(counts, t) + 1];
    if keys[0] == t {
      assert t !in keys[1..];
      SumOverUnaffected(keys[1..], counts, bumped);
    } else {
      SumOverBump(keys[1..], counts, t);
    }
  }

  lemma {:induction false} SumOverUnaffected(keys: seq<string>, m: map<string, nat>, n: map<string, nat>)
    requires forall k :: k in keys ==> Get(m, k) == Get(n, k)
    ensures SumOver(keys, m) == SumOver(keys, n)
  {
    if |keys| > 0 { SumOverUnaffected(keys[1..], m, n); }
  }

  /** The counts add up to the number of streams: summing them over any duplicate-free list
      of keys that covers every key of the table gives |streams|. */
  lemma {:induction false} CountsSumToStreams(streams: seq<Stream>, keys: seq<string>)
    requires forall i, j :: 0 <= i < j < |keys| ==> keys[i] != keys[j]
    requires forall k :: k in Tally(streams) ==> k in keys
    ensures SumOver(keys, Tally(streams)) == |streams|
  {
    if |streams| == 0 {
      SumOverUnaffected(keys, InitialCounts, map[]);
      SumOfEmpty(keys);
    } else {
      var prefix := streams[..|streams| - 1];
      var t := TypeOf(streams[|streams| - 1]);
      var m := Tally(prefix);
      assert Tally(streams) == m[t := Get(m, t) + 1];
      assert forall k :: k in m ==> k in Tally(streams);
      CountsSumToStreams(prefix, keys);
      SumOverBump(keys, m, t);
    }
  }

  lemma {:induction false} SumOfEmpty(keys: seq<string>)
    ensures SumOver(keys, map[]) == 0
  {
    if |keys| > 0 { SumOfEmpty(keys[1..]); }
  }

  /** `VideoInfo(data)`. The fields are set once by the constructor and never changed. */
  class VideoInfo {
    const rawData: ProbeData
    const streams: seq<Stream>
    const formatInfo: map<string, string>
    const streamCounts: map<string, nat>

    /** Takes the stream list and format record when present (an empty list and an empty
        record otherwise) and counts the streams by type, one at a time. */
    constructor (data: ProbeData)
      ensures rawData == data
      ensures streams == data.streams.GetOr([]) && formatInfo == data.format.GetOr(map[])
      ensures streamCounts == Tally(streams)
    {
      rawData := data;
      var all := data.streams.GetOr([]);
      streams := all;
      formatInfo := data.format.GetOr(map[]);
      var counts := InitialCounts;
      assert all[..0] == [];
      for i := 0 to |all|
        invariant counts == Tally(all[..i])
      {
        var t := TypeOf(all[i]);
        assert all[..i + 1] == all[..i] + [all[i]];
        TallyStep(all[..i], all[i]);
        counts := counts[t := Get(counts, t) + 1];
      }
      assert all[..|all|] == all;
      streamCounts := counts;
    }

    /** `get_video_streams`: the streams whose `codec_type` is "video", as many as there are
        video streams. */
    function VideoStreams(): (r: seq<Stream>)
      ensures forall s :: s in r <==> s in streams && s.codecType == Some("video")
      ensures |r| == CountOf(streams, "video")
    {
      FilterMatchesCount(streams, "video");
      StreamsOfType(streams, "video")
    }

    /** `get_audio_streams`: the streams whose `codec_type` is "audio", as many as there are
        audio streams. */
    function AudioStreams(): (r: seq<Stream>)
      ensures forall s :: s in r <==> s in streams && s.codecType == Some("audio")
      ensures |r| == CountOf(streams, "audio")
    {
      FilterMatchesCount(streams, "audio");
      StreamsOfType(streams, "audio")
    }

    /** `get_primary_video_info`: the first video stream, or `{}` when there is none. */
    function PrimaryVideoInfo(): (r: Stream)
      ensures r == EmptyStream <==> VideoStreams() == []
      ensures r != EmptyStream ==> r.codecType == Some("video") && r == VideoStreams()[0]
    {
      FirstOfType(streams, "video");
      Primary(streams, "video")
    }

    /** `get_primary_audio_info`: the first audio stream, or `{}` when there is none. */
    function PrimaryAudioInfo(): (r: Stream)
      ensures r == EmptyStream <==> AudioStreams() == []
      ensures r != EmptyStream ==> r.codecType == Some("audio") && r == AudioStreams()[0]
    {
      FirstOfType(streams, "audio");
      Primary(streams, "audio")
    }
  }
}
