/** The Flask service (server/app.py): the sentence table and its lookups, the
    validation order of the three routes, the rewrite of the transcribed text,
    the pinyin punctuation rule, and the post-processing of matching blocks
    into matched and missed character offsets. The speech model, the word
    segmenter, the pinyin engine and difflib are not modelled: what they
    produce comes in as parameters. */
module Server {
  import opened Types

  // ---------------------------------------------------------------------------
  // The sentence table
  // ---------------------------------------------------------------------------

  /** `{sent['index']: sent for sent in SENTS}`: a later sentence with the same
      index overwrites an earlier one. */
  function IndexToSent(sents: seq<Sentence>): (table: map<int, Sentence>)
    ensures forall k :: k in table <==> exists i :: 0 <= i < |sents| && sents[i].index == k
    ensures forall k :: k in table ==> table[k].index == k && table[k] in sents
  {
    if sents == [] then map[]
    else
      var last := sents[|sents| - 1];
      IndexToSent(sents[..|sents| - 1])[last.index := last]
  }

  /** The table maps each index to the LAST sentence that carries it. */
  lemma {:induction false} IndexToSentKeepsLast(sents: seq<Sentence>, i: int)
    requires 0 <= i < |sents|
    requires forall j :: i < j < |sents| ==> sents[j].index != sents[i].index
    ensures sents[i].index in IndexToSent(sents)
    ensures IndexToSent(sents)[sents[i].index] == sents[i]
  {
    if i < |sents| - 1 {
      var init := sents[..|sents| - 1];
      assert init[i] == sents[i];
      IndexToSentKeepsLast(init, i);
    }
  }

  // ---------------------------------------------------------------------------
  // Responses and the three routes' validation
  // ---------------------------------------------------------------------------

  /** The `file` part of a multipart upload. */
  datatype Upload = Upload(bytes: seq<bv8>)

  datatype Response =
    | SentenceJson(sentence: Sentence)
    | AudioFile(path: string)
    | TranscriptionJson(body: TranscriptionResponse)
    | NotFound(message: string, index: int)
    | BadRequest(message: string, detail: string)
  {
    function Status(): int {
      match this
      case NotFound(_, _) => 404
      case BadRequest(_, _) => 400
      case _ => 200
    }
  }

  /** `os.path.join('audio', name)` on POSIX: an absolute name replaces the
      directory, anything else is put under it. */
  function AudioPath(name: string): (path: string)
    ensures |name| > 0 && name[0] == '/' ==> path == name
    ensures !(|name| > 0 && name[0] == '/') ==>
      |path| == |name| + 6 && path[..6] == "audio/" && path[6..] == name
  {
    if |name| > 0 && name[0] == '/' then name else "audio/" + name
  }

  /** GET /sentences/<index>. */
  function GetSentence(table: map<int, Sentence>, index: int): (r: Response)
    ensures r.Status() == 200 <==> index in table
    ensures r.Status() == 200 ==> r == SentenceJson(table[index])
    ensures r.Status() != 200 ==> r == NotFound("Sentence not found for index", index)
  {
    if index in table then SentenceJson(table[index])
    else NotFound("Sentence not found for index", index)
  }

  /** GET /sentences/<index>/audio. */
  function GetSentenceAudio(table: map<int, Sentence>, index: int): (r: Response)
    ensures r.Status() == 200 <==> index in table
    ensures r.Status() == 200 ==> r == AudioFile(AudioPath(table[index].audio))
    ensures r.Status() != 200 ==> r == NotFound("Sentence audio not found for index", index)
  {
    if index in table then AudioFile(AudioPath(table[index].audio))
    else NotFound("Sentence audio not found for index", index)
  }

  /** Over the table built from a sentence list, both GET routes succeed
      exactly for the indices some sentence carries, and then serve the last
      sentence carrying that index. */
  lemma LookupServesLastSentence(sents: seq<Sentence>, i: int)
    requires 0 <= i < |sents|
    requires forall j :: i < j < |sents| ==> sents[j].index != sents[i].index
    ensures GetSentence(IndexToSent(sents), sents[i].index) == SentenceJson(sents[i])
    ensures GetSentenceAudio(IndexToSent(sents), sents[i].index) == AudioFile(AudioPath(sents[i].audio))
  {
    IndexToSentKeepsLast(sents, i);
  }

  /** An index that no sentence carries is answered with 404 by both routes. */
  lemma LookupRejectsUnknownIndex(sents: seq<Sentence>, index: int)
    requires forall j :: 0 <= j < |sents| ==> sents[j].index != index
    ensures GetSentence(IndexToSent(sents), index).Status() == 404
    ensures GetSentenceAudio(IndexToSent(sents), index).Status() == 404
  {
  }

  // ---------------------------------------------------------------------------
  // The transcribed text
  // ---------------------------------------------------------------------------

  const FullwidthQuestion: char := '\U{FF1F}'
  const IdeographicFullStop: char := '\U{3002}'
  const FullwidthExclamation: char := '\U{FF01}'

  /** `text.replace('?', '？')`. */
  function ReplaceQuestion(s: string): (r: string)
    ensures |r| == |s|
    ensures forall i :: 0 <= i < |s| ==> r[i] == (if s[i] == '?' then FullwidthQuestion else s[i])
    ensures '?' !in r
  {
    if s == [] then []
    else [if s[0] == '?' then FullwidthQuestion else s[0]] + ReplaceQuestion(s[1..])
  }

  /** Rewriting twice is rewriting once. */
  lemma ReplaceQuestionIdempotent(s: string)
    ensures ReplaceQuestion(ReplaceQuestion(s)) == ReplaceQuestion(s)
  {
    var r := ReplaceQuestion(s);
    assert ReplaceQuestion(r) == r by {
      assert forall i :: 0 <= i < |r| ==> r[i] != '?';
    }
  }

  /** `s.endswith(c)` for a single character. */
  predicate EndsWith(s: string, c: char)
    ensures EndsWith(s, c) <==> |s| > 0 && s == s[..|s| - 1] + [c]
  {
    |s| > 0 && s[|s| - 1] == c
  }

  /** The if/elif chain that mirrors the content's terminal mark onto the pinyin. */
  function MirrorPunctuation(content: string, pinyin: string): (r: string)
    ensures r == pinyin || (|r| == |pinyin| + 1 && r[..|pinyin|] == pinyin)
  {
    if EndsWith(content, FullwidthQuestion) && !EndsWith(pinyin, '?') then pinyin + "?"
    else if EndsWith(content, IdeographicFullStop) && !EndsWith(pinyin, '.') then pinyin + "."
    else if EndsWith(content, FullwidthExclamation) && !EndsWith(pinyin, '!') then pinyin + "!"
    else pinyin
  }

  /** The pinyin mark that answers a terminal mark of the content. */
  function MarkFor(c: char): (mark: Option<char>)
    ensures mark.Some? <==> c in [FullwidthQuestion, IdeographicFullStop, FullwidthExclamation]
    ensures mark.Some? ==> mark.value in "?.!"
  {
    if c == FullwidthQuestion then Some('?')
    else if c == IdeographicFullStop then Some('.')
    else if c == FullwidthExclamation then Some('!')
    else None
  }

  /** The chain, read as one rule on the content's last character: the matching
      mark is appended exactly when the pinyin does not already end with it;
      any other content leaves the pinyin as it is. */
  lemma MirrorPunctuationByLastChar(content: string, pinyin: string)
    ensures var r := MirrorPunctuation(content, pinyin);
      if |content| > 0 && MarkFor(content[|content| - 1]).Some? then
        var m := MarkFor(content[|content| - 1]).value;
        r == (if EndsWith(pinyin, m) then pinyin else pinyin + [m]) && EndsWith(r, m)
      else r == pinyin
  {
  }

  /** Applying the rule to its own output with the same content changes nothing. */
  lemma MirrorPunctuationIdempotent(content: string, pinyin: string)
    ensures MirrorPunctuation(content, MirrorPunctuation(content, pinyin)) == MirrorPunctuation(content, pinyin)
  {
    MirrorPunctuationByLastChar(content, pinyin);
    MirrorPunctuationByLastChar(content, MirrorPunctuation(content, pinyin));
  }

  // ---------------------------------------------------------------------------
  // match_indices
  // ---------------------------------------------------------------------------

  /** A matching block: `a[a..a+size]` equals `b[b..b+size]`. */
  datatype Block = Block(a: nat, b: nat, size: nat)

  /** `list(range(start, start + size))`. */
  function Run(start: int, size: nat): (r: seq<int>)
    ensures |r| == size
    ensures forall j :: 0 <= j < size ==> r[j] == start + j
    ensures forall x :: x in r <==> start <= x < start + size
  {
    if size == 0 then [] else Run(start, size - 1) + [start + size - 1]
  }

  /** The groups concatenated in order, as successive `extend`s build them. */
  function Flatten(groups: seq<seq<int>>): (r: seq<int>)
  {
    if groups == [] then [] else Flatten(groups[..|groups| - 1]) + groups[|groups| - 1]
  }

  lemma {:induction false} FlattenMember(groups: seq<seq<int>>, x: int)
    ensures x in Flatten(groups) <==> exists k :: 0 <= k < |groups| && x in groups[k]
  {
    if groups != [] {
      var init := groups[..|groups| - 1];
      FlattenMember(init, x);
      if x in Flatten(init) {
        var k :| 0 <= k < |init| && x in init[k];
        assert groups[k] == init[k];
      }
      if exists k :: 0 <= k < |groups| && x in groups[k] {
        var k :| 0 <= k < |groups| && x in groups[k];
        if k < |init| {
          assert init[k] == groups[k];
        }
      }
    }
  }

  /** `[i for i, _ in enumerate(s) if i not in matched]` for a string `s` of length `n`. */
  function Missed(n: nat, matched: seq<int>): (r: seq<int>)
    ensures forall i :: i in r <==> 0 <= i < n && i !in matched
    ensures forall j, k :: 0 <= j < k < |r| ==> r[j] < r[k]
  {
    if n == 0 then []
    else
      var earlier := Missed(n - 1, matched);
      assert forall j :: 0 <= j < |earlier| ==> earlier[j] < n - 1 by {
        assert forall j :: 0 <= j < |earlier| ==> earlier[j] in earlier;
      }
      earlier + (if n - 1 in matched then [] else [n - 1])
  }

  /** The native-side missed list as app.py computes it: over the offsets of
      the TRANSCRIBED string `a`. */
  function NativeMissedAsWritten(a: string, b: string, bMatched: seq<seq<int>>): (r: seq<int>)
    ensures forall i :: i in r <==> 0 <= i < |a| && i !in Flatten(bMatched)
  {
    Missed(|a|, Flatten(bMatched))
  }

  /** The native-side missed list as evidently intended: over the offsets of
      the native string `b`. */
  function NativeMissedIntended(a: string, b: string, bMatched: seq<seq<int>>): (r: seq<int>)
    ensures forall i :: i in r <==> 0 <= i < |b| && i !in Flatten(bMatched)
  {
    Missed(|b|, Flatten(bMatched))
  }

  /** Offset `i` of the transcription lies in some block. */
  predicate CoveredA(blocks: seq<Block>, i: int) {
    exists k :: 0 <= k < |blocks| && blocks[k].a <= i < blocks[k].a + blocks[k].size
  }

  /** Offset `i` of the native string lies in some block. */
  predicate CoveredB(blocks: seq<Block>, i: int) {
    exists k :: 0 <= k < |blocks| && blocks[k].b <= i < blocks[k].b + blocks[k].size
  }

  /** Every block lies inside both strings, as difflib's blocks do. */
  predicate InBounds(a: string, b: string, blocks: seq<Block>) {
    forall k :: 0 <= k < |blocks| ==>
      blocks[k].a + blocks[k].size <= |a| && blocks[k].b + blocks[k].size <= |b|
  }

  /** The four lists `match_indices(a, b)` returns for the matching blocks
      `blocks`: one group per block on each side, in block order, each group
      the run of offsets the block covers; and the two missed lists, both
      enumerated over the offsets of `a`. */
  predicate Aligned(a: string, b: string, blocks: seq<Block>,
                    aMatched: seq<seq<int>>, aMissed: seq<int>,
                    bMatched: seq<seq<int>>, bMissed: seq<int>)
  {
    |aMatched| == |blocks| && |bMatched| == |blocks| &&
    (forall k :: 0 <= k < |blocks| ==>
       aMatched[k] == Run(blocks[k].a, blocks[k].size) &&
       bMatched[k] == Run(blocks[k].b, blocks[k].size)) &&
    aMissed == Missed(|a|, Flatten(aMatched)) &&
    bMissed == NativeMissedAsWritten(a, b, bMatched)
  }

  /** match_indices, with difflib's matching blocks given. Apart from the
      matcher, which is not modelled, nothing reads `b`. */
  method MatchIndices(a: string, b: string, blocks: seq<Block>)
    returns (aMatched: seq<seq<int>>, aMissed: seq<int>, bMatched: seq<seq<int>>, bMissed: seq<int>)
    ensures Aligned(a, b, blocks, aMatched, aMissed, bMatched, bMissed)
  {
    aMatched, bMatched := [], [];
    var allA: seq<int> := [];
    var allB: seq<int> := [];
    for k := 0 to |blocks|
      invariant |aMatched| == k && |bMatched| == k
      invariant forall j :: 0 <= j < k ==>
        aMatched[j] == Run(blocks[j].a, blocks[j].size) &&
        bMatched[j] == Run(blocks[j].b, blocks[j].size)
      invariant allA == Flatten(aMatched) && allB == Flatten(bMatched)
    {
      var block := blocks[k];

      var newA := Run(block.a, block.size);
      assert (aMatched + [newA])[..k] == aMatched;
      aMatched := aMatched + [newA];
      allA := allA + newA;

      var newB := Run(block.b, block.size);
      assert (bMatched + [newB])[..k] == bMatched;
      bMatched := bMatched + [newB];
      allB := allB + newB;
    }
    aMissed := Missed(|a|, allA);
    bMissed := Missed(|a|, allB);
  }

  /** An offset is among the flattened groups exactly when a block covers it. */
  lemma GroupsCover(blocks: seq<Block>, groups: seq<seq<int>>, onA: bool, i: int)
    requires |groups| == |blocks|
    requires forall k :: 0 <= k < |blocks| ==>
      groups[k] == Run(if onA then blocks[k].a else blocks[k].b, blocks[k].size)
    ensures i in Flatten(groups) <==> (if onA then CoveredA(blocks, i) else CoveredB(blocks, i))
  {
    FlattenMember(groups, i);
  }

  /** Transcription side: the missed list is exactly the offsets of `a` that no
      block covers, in ascending order; it is disjoint from the matched offsets,
      and with in-bounds blocks the two together are every offset of `a`. */
  lemma TranscriptionSidePartition(a: string, b: string, blocks: seq<Block>,
                                   aMatched: seq<seq<int>>, aMissed: seq<int>,
                                   bMatched: seq<seq<int>>, bMissed: seq<int>)
    requires Aligned(a, b, blocks, aMatched, aMissed, bMatched, bMissed)
    ensures forall i :: i in aMissed <==> 0 <= i < |a| && !CoveredA(blocks, i)
    ensures forall i :: i in Flatten(aMatched) <==> CoveredA(blocks, i)
    ensures forall i :: !(i in Flatten(aMatched) && i in aMissed)
    ensures forall j, k :: 0 <= j < k < |aMissed| ==> aMissed[j] < aMissed[k]
    ensures InBounds(a, b, blocks) ==>
      forall i :: i in Flatten(aMatched) || i in aMissed <==> 0 <= i < |a|
  {
    forall i ensures i in Flatten(aMatched) <==> CoveredA(blocks, i) {
      GroupsCover(blocks, aMatched, true, i);
    }
  }

  /** Native side, as written: the missed list holds exactly the offsets below
      `|a|` that no block covers on the native side, so an offset of `b` at or
      beyond `|a|` is never reported, matched or not. */
  lemma NativeSideAsWritten(a: string, b: string, blocks: seq<Block>,
                            aMatched: seq<seq<int>>, aMissed: seq<int>,
                            bMatched: seq<seq<int>>, bMissed: seq<int>)
    requires Aligned(a, b, blocks, aMatched, aMissed, bMatched, bMissed)
    ensures forall i :: i in bMissed <==> 0 <= i < |a| && !CoveredB(blocks, i)
    ensures forall i :: i in Flatten(bMatched) <==> CoveredB(blocks, i)
    ensures forall i :: |a| <= i ==> i !in bMissed
  {
    forall i ensures i in Flatten(bMatched) <==> CoveredB(blocks, i) {
      GroupsCover(blocks, bMatched, false, i);
    }
  }

  /** As written, a transcription longer than the native string makes the
      native missed list report offsets at or beyond the native string's end. */
  lemma NativeMissedReportsPastNativeEnd(a: string, b: string, blocks: seq<Block>,
                                         aMatched: seq<seq<int>>, aMissed: seq<int>,
                                         bMatched: seq<seq<int>>, bMissed: seq<int>, i: int)
    requires Aligned(a, b, blocks, aMatched, aMissed, bMatched, bMissed)
    requires InBounds(a, b, blocks)
    requires |b| <= i < |a|
    ensures i in bMissed
  {
    NativeSideAsWritten(a, b, blocks, aMatched, aMissed, bMatched, bMissed);
  }

  /** The intended native-side list partitions the offsets of `b` with the
      native matched offsets, given in-bounds blocks. */
  lemma NativeSideIntendedPartition(a: string, b: string, blocks: seq<Block>,
                                    aMatched: seq<seq<int>>, aMissed: seq<int>,
                                    bMatched: seq<seq<int>>, bMissed: seq<int>)
    requires Aligned(a, b, blocks, aMatched, aMissed, bMatched, bMissed)
    requires InBounds(a, b, blocks)
    ensures forall i :: i in NativeMissedIntended(a, b, bMatched) <==> 0 <= i < |b| && !CoveredB(blocks, i)
    ensures forall i :: i in Flatten(bMatched) || i in NativeMissedIntended(a, b, bMatched) <==> 0 <= i < |b|
  {
    forall i ensures i in Flatten(bMatched) <==> CoveredB(blocks, i) {
      GroupsCover(blocks, bMatched, false, i);
    }
  }

  /** The reference sentence "你在想什么？" against a transcription that drops the
      question mark: difflib's blocks are (0, 0, 5) and the closing (5, 6, 0).
      The native offset 5 (the mark) is in no native group, yet the native
      missed list the server sends is empty. */
  lemma NativeMissedDropsTrailingMark()
    ensures var matched := [[0, 1, 2, 3, 4], []];
            Aligned("你在想什么", "你在想什么？", [Block(0, 0, 5), Block(5, 6, 0)], matched, [], matched, []) &&
            5 < |"你在想什么？"| && 5 !in Flatten(matched)
  {
    DroppedMarkAligned();
    FirstFiveFlatten();
  }

  lemma DroppedMarkAligned()
    ensures Aligned("你在想什么", "你在想什么？", [Block(0, 0, 5), Block(5, 6, 0)],
                    [[0, 1, 2, 3, 4], []], [], [[0, 1, 2, 3, 4], []], [])
  {
    var a := "你在想什么";
    var blocks := [Block(0, 0, 5), Block(5, 6, 0)];
    var matched: seq<seq<int>> := [[0, 1, 2, 3, 4], []];
    forall k | 0 <= k < |blocks|
      ensures matched[k] == Run(blocks[k].a, blocks[k].size) == Run(blocks[k].b, blocks[k].size)
    {
      if k == 0 {
        FirstFiveRun();
      } else {
        assert Run(5, 0) == [] == Run(6, 0);
      }
    }
    assert Missed(|a|, Flatten(matched)) == [] by {
      FirstFiveFlatten();
      FirstFiveMissed();
    }
  }

  /** On the same pair, the intended native missed list reports offset 5. */
  lemma NativeMissedIntendedReportsTrailingMark()
    ensures NativeMissedIntended("你在想什么", "你在想什么？", [[0, 1, 2, 3, 4], []]) == [5]
  {
    FirstFiveFlatten();
    FirstFiveMissed();
  }

  lemma FirstFiveRun()
    ensures Run(0, 5) == [0, 1, 2, 3, 4]
  {
    var run := Run(0, 5);
    assert run[0] == 0 && run[1] == 1 && run[2] == 2 && run[3] == 3 && run[4] == 4;
  }

  lemma FirstFiveFlatten()
    ensures Flatten([[0, 1, 2, 3, 4], []]) == [0, 1, 2, 3, 4]
  {
    var matched: seq<seq<int>> := [[0, 1, 2, 3, 4], []];
    assert matched[..1] == [[0, 1, 2, 3, 4]];
    assert matched[..1][..0] == [];
  }

  lemma FirstFiveMissed()
    ensures Missed(5, [0, 1, 2, 3, 4]) == []
    ensures Missed(6, [0, 1, 2, 3, 4]) == [5]
  {
    var m := [0, 1, 2, 3, 4];
    assert Missed(0, m) == [];
    assert Missed(1, m) == [] by { assert 0 in m; }
    assert Missed(2, m) == [] by { assert 1 in m; }
    assert Missed(3, m) == [] by { assert 2 in m; }
    assert Missed(4, m) == [] by { assert 3 in m; }
    assert Missed(5, m) == [] by { assert 4 in m; }
    assert Missed(6, m) == [5] by { assert 5 !in m; }
  }

  // ---------------------------------------------------------------------------
  // POST /sentences/<index>/transcribe
  // ---------------------------------------------------------------------------

  /** The transcribe route. What the left-out libraries produce arrives as
      parameters: `spokenText` is the speech model's text, `wordsPinyin` the
      capitalised pinyin of the Chinese words of the rewritten text, and
      `contentBlocks`/`pinyinBlocks` difflib's matching blocks for the content
      and the pinyin pairs. The unknown index is rejected before the missing
      upload is. */
  method Transcribe(table: map<int, Sentence>, index: int, file: Option<Upload>,
                    spokenText: string, wordsPinyin: string,
                    contentBlocks: seq<Block>, pinyinBlocks: seq<Block>)
    returns (r: Response)
    ensures r.Status() == 404 <==> index !in table
    ensures r.Status() == 400 <==> index in table && file.None?
    ensures r.Status() == 404 ==> r == NotFound("Sentence audio not found for index", index)
    ensures r.Status() == 400 ==> r == BadRequest("Invalid post body", "Missing key \"file\"")
    ensures r.Status() == 200 ==> r.TranscriptionJson?
    ensures r.TranscriptionJson? ==>
      var sent := table[index];
      var c := r.body.content;
      var p := r.body.pinyin;
      c.transcription == ReplaceQuestion(spokenText) && c.native == sent.content &&
      p.transcription == MirrorPunctuation(c.transcription, wordsPinyin) && p.native == sent.pinyin &&
      Aligned(c.transcription, c.native, contentBlocks, c.transcriptionMatchedIndices, c.transcriptionMissedIndices,
              c.nativeMatchedIndices, c.nativeMissedIndices) &&
      Aligned(p.transcription, p.native, pinyinBlocks, p.transcriptionMatchedIndices, p.transcriptionMissedIndices,
              p.nativeMatchedIndices, p.nativeMissedIndices)
  {
    if index !in table {
      return NotFound("Sentence audio not found for index", index);
    } else if file.None? {
      return BadRequest("Invalid post body", "Missing key \"file\"");
    }
    var sent := table[index];
    var nativeContent := sent.content;
    var nativePinyin := sent.pinyin;

    var transcribedContent := ReplaceQuestion(spokenText);
    var transcribedPinyin := MirrorPunctuation(transcribedContent, wordsPinyin);

    var cam, cmi, cnm, cnmi := MatchIndices(transcribedContent, nativeContent, contentBlocks);
    var pam, pmi, pnm, pnmi := MatchIndices(transcribedPinyin, nativePinyin, pinyinBlocks);

    r := TranscriptionJson(TranscriptionResponse(
      AlignmentField(transcribedContent, nativeContent, cam, cmi, cnm, cnmi),
      AlignmentField(transcribedPinyin, nativePinyin, pam, pmi, pnm, pnmi)));
  }
}
