/** The `chunk_numbers` exchange: which chunks of a file a peer already holds. */
module ChunkNumbers {
  import opened Text
  import opened Selection

  /** The chunk map of a peer: for each file being downloaded, the chunks verified so far. */
  type ChunkMap = map<string, seq<nat>>

  function Encode(chunks: seq<nat>): seq<string> {
    seq(|chunks|, i requires 0 <= i < |chunks| => ToString(chunks[i]))
  }

  /** The numbers, each followed by a space. */
  function Spaced(chunks: seq<nat>): string {
    if chunks == [] then "" else Join(Encode(chunks), ' ') + " "
  }

  lemma SpacedSnoc(chunks: seq<nat>, i: nat)
    requires i < |chunks|
    ensures Spaced(chunks[..i + 1]) == Spaced(chunks[..i]) + (ToString(chunks[i]) + " ")
  {
    var words, word := Encode(chunks[..i]), ToString(chunks[i]);
    assert Encode(chunks[..i + 1]) == words + [word];
    if i > 0 {
      JoinSnoc(words, word, ' ');
      Regroup(Join(words, ' '), word);
    }
  }

  lemma Regroup(s: string, word: string)
    ensures s + [' '] + word + " " == s + " " + (word + " ")
  {
  }

  /** The reply: "-1" for a file not being downloaded, "-2" for none yet, else the numbers. */
  method GetChunkInfo(held: ChunkMap, filename: string) returns (data: string)
    ensures filename !in held ==> data == "-1"
    ensures filename in held && held[filename] == [] ==> data == "-2"
    ensures filename in held && held[filename] != [] ==> data == Join(Encode(held[filename]), ' ')
  {
    if filename !in held {
      return "-1";
    }
    var chunks := held[filename];
    if |chunks| == 0 {
      return "-2";
    }
    data := "";
    for i := 0 to |chunks|
      invariant data == Spaced(chunks[..i])
    {
      SpacedSnoc(chunks, i);
      data := data + (ToString(chunks[i]) + " ");
    }
    assert chunks[..|chunks|] == chunks;
    data := data[..|data| - 1];
  }

  /** The numbers of a list reply, shifted by one. */
  function Numbered(words: seq<string>): seq<int> {
    seq(|words|, i requires 0 <= i < |words| => Atoi(words[i]) + 1)
  }

  function Interpret(reply: string): Report {
    if reply == "-1" then Everything
    else if reply == "-2" then Nothing
    else Listed(Numbered(Split(reply, ' ')))
  }

  method ParseReply(reply: string) returns (report: Report)
    ensures report == Interpret(reply)
  {
    if reply == "-1" {
      return Everything;
    } else if reply == "-2" {
      return Nothing;
    }
    var words := SplitText(reply, ' ');
    var temp: seq<int> := [];
    for i := 0 to |words|
      invariant temp == Numbered(words[..i])
    {
      temp := temp + [Atoi(words[i]) + 1];
    }
    assert words[..|words|] == words;
    return Listed(temp);
  }

  function Shifted(chunks: seq<nat>): seq<int> {
    seq(|chunks|, i requires 0 <= i < |chunks| => chunks[i] + 1)
  }

  lemma EncodedStartsWithDigit(chunks: seq<nat>)
    requires chunks != []
    ensures var reply := Join(Encode(chunks), ' ');
            reply != "" && IsDigit(reply[0])
  {
    JoinStartsWithFirst(Encode(chunks), ' ');
  }

  lemma {:induction false} JoinStartsWithFirst(v: seq<string>, d: char)
    requires v != []
    ensures v[0] <= Join(v, d)
  {
    if |v| > 1 {
      JoinStartsWithFirst(v[..|v| - 1], d);
    }
  }

  lemma EncodedIsFree(chunks: seq<nat>)
    ensures Free(Encode(chunks), ' ')
  {
    var words := Encode(chunks);
    forall i, c | 0 <= i < |words| && c in words[i] ensures c != ' ' {
      assert IsDigit(c);
    }
  }

  lemma NumberedUndoesEncode(chunks: seq<nat>)
    ensures Numbered(Encode(chunks)) == Shifted(chunks)
  {
    forall i | 0 <= i < |chunks| ensures Atoi(Encode(chunks)[i]) == chunks[i] {
      AtoiUndoesToString(chunks[i]);
    }
  }

  /** Every non-empty list is recovered, in order and shifted by one, and is taken for no other reply. */
  lemma ReplyRoundTrip(chunks: seq<nat>)
    requires chunks != []
    ensures Interpret(Join(Encode(chunks), ' ')) == Listed(Shifted(chunks))
  {
    EncodedStartsWithDigit(chunks);
    EncodedIsFree(chunks);
    SplitUndoesJoin(Encode(chunks), ' ');
    NumberedUndoesEncode(chunks);
  }

  /** What a chunk map says of a file: one not being downloaded is there as a whole. */
  function ReportOf(held: ChunkMap, filename: string): Report {
    if filename !in held then Everything
    else if held[filename] == [] then Nothing
    else Listed(Shifted(held[filename]))
  }

  /** The peer has chunk `k` of the file. */
  predicate HasChunk(held: ChunkMap, filename: string, k: nat) {
    filename !in held || k in held[filename]
  }

  /** A report holds exactly the numbers of the chunks the peer has. */
  lemma ReportMeansChunks(held: ChunkMap, filename: string, nchunks: nat, k: nat)
    requires k < nchunks
    ensures k + 1 in Numbers(ReportOf(held, filename), nchunks) <==> HasChunk(held, filename, k)
  {
    if filename !in held {
      assert Numbers(Everything, nchunks)[k] == k + 1;
    } else if k in held[filename] {
      var i :| 0 <= i < |held[filename]| && held[filename][i] == k;
      assert Shifted(held[filename])[i] == k + 1;
    }
  }

  /** What the downloader learns is what the seeder's chunk map says. */
  method AskSeeder(held: ChunkMap, filename: string) returns (report: Report)
    ensures report == ReportOf(held, filename)
  {
    var reply := GetChunkInfo(held, filename);
    report := ParseReply(reply);
    if filename in held && held[filename] != [] {
      ReplyRoundTrip(held[filename]);
    }
  }
}
