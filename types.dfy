/** Shapes shared by the server and the client: a sentence record, the
    alignment response of the transcription route, and the location state the
    router hands to the sentence view (ui/src/types.ts). */
module Types {

  datatype Option<+T> = None | Some(value: T)

  /** A dictionary entry of a sentence: the characters, then (meaning, pinyin). */
  datatype Word = Word(chars: string, meaning: string, pinyin: string)

  /** One record of the sentence list; `index` is its key. */
  datatype Sentence = Sentence(
    index: int,
    kind: string,
    content: string,
    pinyin: string,
    audio: string,
    meaning: string,
    words: seq<Word>)

  /** One of the two comparison records of a transcription response. The
      matched offsets come in groups (one group per matching block); the
      missed offsets are flat lists, which is what the server builds. */
  datatype AlignmentField = AlignmentField(
    transcription: string,
    native: string,
    transcriptionMatchedIndices: seq<seq<int>>,
    transcriptionMissedIndices: seq<int>,
    nativeMatchedIndices: seq<seq<int>>,
    nativeMissedIndices: seq<int>)

  datatype TranscriptionResponse = TranscriptionResponse(content: AlignmentField, pinyin: AlignmentField)

  /** The router state a navigation link carries. */
  datatype LocationState = LocationState(index: int)
}
