/** The sentence view of the client (ui/src/App.tsx): seven state cells that
    the view's effects update when the router location changes, when a fetch
    completes and when the record button is clicked, and the choice of what
    the page and the two transcription panels show. Each completion of a
    request is one event; React's scheduling and the network are not modelled. */
module App {
  import opened Types

  /** An object URL made by `URL.createObjectURL`; every call yields a new one. */
  datatype Handle = ObjectUrl(id: nat)

  /** The bytes of a fetched audio file. */
  type Blob = seq<bv8>

  datatype Icon = MicIcon | PauseIcon

  /** What the panels read from a transcription: its content and its pinyin. */
  datatype Transcription = Transcription(content: string, pinyin: string)

  /** Which state cell a fetched audio file is meant for. */
  datatype Target = NativeTarget | RecordedTarget

  /** A request the view has sent to the sentence service. */
  datatype Request =
    | FetchSentence(index: int)
    | FetchSentenceAudio(index: int, target: Target)
    | PostTranscribe(audio: Handle)

  /** The view's state cells, plus the number of object URLs made so far and
      the log of requests sent. */
  datatype Session = Session(
    location: Option<LocationState>,
    sentence: Option<Sentence>,
    nativeAudio: Option<Handle>,
    recordedAudio: Option<Handle>,
    recording: bool,
    recordButtonColor: string,
    recordIcon: Icon,
    transcription: Option<Transcription>,
    urls: nat,
    issued: seq<Request>)

  /** The events the view reacts to: a new router location, the completion of
      one of its requests, and a click on the record button. */
  datatype Event =
    | LocationChanged(location: Option<LocationState>)
    | SentenceResolved(data: Option<Sentence>)
    | NativeAudioResolved(blob: Option<Blob>)
    | RecordedAudioResolved(blob: Option<Blob>)
    | RecordClicked
    | TranscriptionResolved(result: Option<Transcription>)

  // ---------------------------------------------------------------------------
  // The record button
  // ---------------------------------------------------------------------------

  /** The effect on `recording`: colour scheme and icon of the record button. */
  function RecordButton(recording: bool): (button: (string, Icon))
    ensures button.1 == PauseIcon <==> recording
  {
    if recording then ("red", PauseIcon) else ("teal", MicIcon)
  }

  /** Red with the pause icon exactly while recording, teal with the microphone
      otherwise; the two looks are different, so the button shows the flag. */
  lemma RecordButtonShowsRecording(recording: bool)
    ensures RecordButton(recording).0 == "red" <==> recording
    ensures RecordButton(recording).1 == PauseIcon <==> recording
    ensures RecordButton(recording).0 == "teal" <==> !recording
    ensures RecordButton(recording).1 == MicIcon <==> !recording
  {
    assert "red" != "teal" by {
      assert "red"[0] != "teal"[0];
    }
  }

  // ---------------------------------------------------------------------------
  // Transitions
  // ---------------------------------------------------------------------------

  /** The requests the fetch effects send for a location. */
  function FetchesFor(location: Option<LocationState>): (reqs: seq<Request>)
    ensures |reqs| == (if location.Some? then 3 else 0)
    ensures forall i :: 0 <= i < |reqs| ==> !reqs[i].PostTranscribe? && reqs[i].index == location.value.index
  {
    match location
    case None => []
    case Some(loc) =>
      [FetchSentence(loc.index),
       FetchSentenceAudio(loc.index, NativeTarget),
       FetchSentenceAudio(loc.index, RecordedTarget)]
  }

  /** The effects that run on each event, in the order App.tsx declares them. */
  function Step(s: Session, e: Event): (t: Session)
    ensures s.issued <= t.issued
    ensures s.urls <= t.urls
  {
    match e
    case LocationChanged(location) =>
      s.(location := location, sentence := None, nativeAudio := None, recordedAudio := None,
         transcription := None, issued := s.issued + FetchesFor(location))
    case SentenceResolved(data) =>
      s.(sentence := data)
    case NativeAudioResolved(blob) =>
      if blob.Some? then s.(nativeAudio := Some(ObjectUrl(s.urls)), urls := s.urls + 1) else s
    case RecordedAudioResolved(blob) =>
      if blob.Some? then
        var url := ObjectUrl(s.urls);
        s.(recordedAudio := Some(url), urls := s.urls + 1, issued := s.issued + [PostTranscribe(url)])
      else s
    case RecordClicked =>
      var button := RecordButton(!s.recording);
      s.(recording := !s.recording, recordButtonColor := button.0, recordIcon := button.1)
    case TranscriptionResolved(result) =>
      s.(transcription := result)
  }

  /** The session after the events, applied in order. */
  function RunEvents(s: Session, events: seq<Event>): Session
    decreases |events|
  {
    if events == [] then s else RunEvents(Step(s, events[0]), events[1..])
  }

  /** The state cells before the first effects run. */
  function Blank(): Session {
    Session(None, None, None, None, false, "teal", MicIcon, None, 0, [])
  }

  /** Mounting the view at a location: the initial cells, then every effect once. */
  function Mount(location: Option<LocationState>): (s: Session)
    ensures s.location == location && !s.recording && s.urls == 0
    ensures s.issued == FetchesFor(location)
  {
    Step(Blank(), LocationChanged(location))
  }

  /** What holds of every reachable session: the button shows the flag; every
      object URL held or posted was made earlier; the two audio cells never
      share a URL; and a recorded URL has always been posted for transcription. */
  ghost predicate Consistent(s: Session) {
    (s.recordButtonColor, s.recordIcon) == RecordButton(s.recording) &&
    (s.nativeAudio.Some? ==> s.nativeAudio.value.id < s.urls) &&
    (s.recordedAudio.Some? ==> s.recordedAudio.value.id < s.urls) &&
    (s.nativeAudio.Some? && s.recordedAudio.Some? ==> s.nativeAudio != s.recordedAudio) &&
    (s.recordedAudio.Some? ==> PostTranscribe(s.recordedAudio.value) in s.issued) &&
    (forall i :: 0 <= i < |s.issued| && s.issued[i].PostTranscribe? ==> s.issued[i].audio.id < s.urls)
  }

  lemma MountIsConsistent(location: Option<LocationState>)
    ensures Consistent(Mount(location))
  {
  }

  lemma StepKeepsConsistent(s: Session, e: Event)
    requires Consistent(s)
    ensures Consistent(Step(s, e))
  {
    match e
    case LocationChanged(location) =>
      var t := Step(s, e);
      assert forall i :: 0 <= i < |s.issued| ==> t.issued[i] == s.issued[i];
    case RecordedAudioResolved(blob) =>
      var t := Step(s, e);
      assert forall i :: 0 <= i < |s.issued| ==> t.issued[i] == s.issued[i];
    case _ =>
  }

  /** Every session reached from a consistent one by any events is consistent. */
  lemma {:induction false} RunKeepsConsistent(s: Session, events: seq<Event>)
    requires Consistent(s)
    ensures Consistent(RunEvents(s, events))
    decreases |events|
  {
    if events != [] {
      StepKeepsConsistent(s, events[0]);
      RunKeepsConsistent(Step(s, events[0]), events[1..]);
    }
  }

  /** `recording` starts false, and two clicks restore the whole session. */
  lemma RecordClickedTwiceRestores(s: Session)
    requires Consistent(s)
    ensures forall location :: !Mount(location).recording
    ensures Step(s, RecordClicked).recording == !s.recording
    ensures Step(Step(s, RecordClicked), RecordClicked) == s
  {
  }

  /** A location change clears the sentence, both audio URLs and the
      transcription, keeps the recording flag and the button, and sends the
      sentence and audio fetches only for a non-null location. */
  lemma LocationChangeClears(s: Session, location: Option<LocationState>)
    ensures var t := Step(s, LocationChanged(location));
      t.sentence.None? && t.nativeAudio.None? && t.recordedAudio.None? && t.transcription.None? &&
      t.recording == s.recording && t.recordButtonColor == s.recordButtonColor && t.recordIcon == s.recordIcon &&
      t.issued[..|s.issued|] == s.issued &&
      (location.None? ==> t.issued == s.issued) &&
      (location.Some? ==>
         t.issued[|s.issued|..] ==
           [FetchSentence(location.value.index),
            FetchSentenceAudio(location.value.index, NativeTarget),
            FetchSentenceAudio(location.value.index, RecordedTarget)])
  {
    var t := Step(s, LocationChanged(location));
    assert t.issued[..|s.issued|] == s.issued;
  }

  /** A fetched audio file with no body leaves the session as it was. */
  lemma NullAudioIgnored(s: Session)
    ensures Step(s, NativeAudioResolved(None)) == s
    ensures Step(s, RecordedAudioResolved(None)) == s
  {
  }

  /** A recorded file that arrives gets a URL no cell held before and no
      request named before, and exactly one request is sent: its transcription. */
  lemma RecordedAudioPostsTranscription(s: Session, blob: Blob)
    requires Consistent(s)
    ensures var t := Step(s, RecordedAudioResolved(Some(blob)));
      t.recordedAudio.Some? &&
      t.recordedAudio != s.recordedAudio && t.recordedAudio != s.nativeAudio &&
      (forall i :: 0 <= i < |s.issued| ==> s.issued[i] != PostTranscribe(t.recordedAudio.value)) &&
      t.issued == s.issued + [PostTranscribe(t.recordedAudio.value)]
  {
  }

  /** The completions install what they deliver without looking at the current
      location or recording: after two recordings, a transcription that arrives
      is shown beside the second one, whichever request it answers. */
  lemma TranscriptionNotMatchedToRecording(s: Session, first: Blob, second: Blob, t: Transcription)
    requires Consistent(s)
    ensures var u := RunEvents(s, [RecordedAudioResolved(Some(first)), RecordedAudioResolved(Some(second)),
                            TranscriptionResolved(Some(t))]);
      u.issued == s.issued + [PostTranscribe(ObjectUrl(s.urls)), PostTranscribe(ObjectUrl(s.urls + 1))] &&
      u.recordedAudio == Some(ObjectUrl(s.urls + 1)) &&
      TranscribedContent(u.recordedAudio, u.transcription) == TextPanel("6xl", t.content)
  {
    var events := [RecordedAudioResolved(Some(first)), RecordedAudioResolved(Some(second)),
                   TranscriptionResolved(Some(t))];
    var s1 := Step(s, events[0]);
    var s2 := Step(s1, events[1]);
    var s3 := Step(s2, events[2]);
    assert RunEvents(s, events) == RunEvents(s1, events[1..]);
    assert RunEvents(s1, events[1..]) == RunEvents(s2, events[2..]);
    assert RunEvents(s2, events[2..]) == RunEvents(s3, []) == s3;
  }

  /** A transcription that arrives after the location changed is installed
      too, and a recorded file that arrives next does not clear it: the new
      recording is shown with that earlier transcription, not with a spinner. */
  lemma EarlierTranscriptionShownWithNewRecording(s: Session, location: LocationState, t: Transcription, blob: Blob)
    ensures var u := RunEvents(s, [LocationChanged(Some(location)), TranscriptionResolved(Some(t)),
                            RecordedAudioResolved(Some(blob))]);
      u.recordedAudio == Some(ObjectUrl(s.urls)) &&
      u.issued == s.issued + FetchesFor(Some(location)) + [PostTranscribe(ObjectUrl(s.urls))] &&
      TranscribedContent(u.recordedAudio, u.transcription) == TextPanel("6xl", t.content) &&
      TranscribedPinyin(u.recordedAudio, u.transcription) == TextPanel("4xl", t.pinyin)
  {
    var events := [LocationChanged(Some(location)), TranscriptionResolved(Some(t)),
                   RecordedAudioResolved(Some(blob))];
    var s1 := Step(s, events[0]);
    var s2 := Step(s1, events[1]);
    var s3 := Step(s2, events[2]);
    assert RunEvents(s, events) == RunEvents(s1, events[1..]);
    assert RunEvents(s1, events[1..]) == RunEvents(s2, events[2..]);
    assert RunEvents(s2, events[2..]) == RunEvents(s3, []) == s3;
  }

  // ---------------------------------------------------------------------------
  // What the view shows
  // ---------------------------------------------------------------------------

  /** A transcription panel: a line of text in some font size, or a spinner. */
  datatype Panel = TextPanel(fontSize: string, text: string) | SpinnerPanel

  function TranscribedContent(recordedAudio: Option<Handle>, transcription: Option<Transcription>): (panel: Panel)
    ensures panel.SpinnerPanel? <==> recordedAudio.Some? && transcription.None?
    ensures panel.TextPanel? ==> panel.fontSize == "6xl"
  {
    if recordedAudio.None? then TextPanel("6xl", "")
    else if transcription.None? then SpinnerPanel
    else TextPanel("6xl", transcription.value.content)
  }

  function TranscribedPinyin(recordedAudio: Option<Handle>, transcription: Option<Transcription>): (panel: Panel)
    ensures panel.SpinnerPanel? <==> recordedAudio.Some? && transcription.None?
    ensures panel.TextPanel? ==> panel.fontSize == "4xl"
  {
    if recordedAudio.None? then TextPanel("4xl", "")
    else if transcription.None? then SpinnerPanel
    else TextPanel("4xl", transcription.value.pinyin)
  }

  /** The two panels always choose the same variant: both empty without a
      recording, both spinners while the transcription is null, otherwise the
      transcription's content and pinyin. A transcription is shown only beside
      a recorded URL. */
  lemma PanelsAgree(recordedAudio: Option<Handle>, transcription: Option<Transcription>)
    ensures var c := TranscribedContent(recordedAudio, transcription);
            var p := TranscribedPinyin(recordedAudio, transcription);
      (c.SpinnerPanel? <==> p.SpinnerPanel?) &&
      (c == TextPanel("6xl", "") && p == TextPanel("4xl", "") <== recordedAudio.None?) &&
      (c.SpinnerPanel? <==> recordedAudio.Some? && transcription.None?) &&
      (recordedAudio.Some? && transcription.Some? ==>
         c == TextPanel("6xl", transcription.value.content) && p == TextPanel("4xl", transcription.value.pinyin))
  {
  }

  /** The three pages of the view. The full page carries what it displays. */
  datatype Page =
    | NoSentenceSelected
    | SentenceLoading
    | SentencePage(
        sentence: Sentence,
        nativeAudio: Option<Handle>,
        recordedAudio: Option<Handle>,
        recordButtonColor: string,
        recordIcon: Icon,
        pinyinPanel: Panel,
        contentPanel: Panel)

  function Render(s: Session): (page: Page)
    ensures page.NoSentenceSelected? <==> s.location.None?
    ensures page.SentencePage? <==> s.location.Some? && s.sentence.Some?
    ensures page.SentencePage? ==> page.sentence == s.sentence.value
  {
    if s.location.None? then NoSentenceSelected
    else if s.sentence.None? then SentenceLoading
    else SentencePage(s.sentence.value, s.nativeAudio, s.recordedAudio, s.recordButtonColor, s.recordIcon,
                      TranscribedPinyin(s.recordedAudio, s.transcription),
                      TranscribedContent(s.recordedAudio, s.transcription))
  }

  /** After a location change the page reads "No sentence selected" for a null
      location and "Sentence loading ..." otherwise, until a sentence arrives;
      then the full page shows it, with empty transcription panels until a
      recorded file arrives. */
  lemma PageAfterLocationChange(s: Session, location: Option<LocationState>, sentence: Sentence)
    ensures var t := Step(s, LocationChanged(location));
      Render(t) == (if location.None? then NoSentenceSelected else SentenceLoading) &&
      (location.Some? ==>
         var u := Step(t, SentenceResolved(Some(sentence)));
         Render(u).SentencePage? && Render(u).sentence == sentence &&
         Render(u).contentPanel == TextPanel("6xl", "") && Render(u).pinyinPanel == TextPanel("4xl", ""))
  {
  }

  /** In any session reached by events, a full page's button shows the flag. */
  lemma {:induction false} RenderedButtonShowsRecording(location: Option<LocationState>, events: seq<Event>)
    ensures var s := RunEvents(Mount(location), events);
      Render(s).SentencePage? ==>
        (Render(s).recordButtonColor, Render(s).recordIcon) == RecordButton(s.recording)
  {
    MountIsConsistent(location);
    RunKeepsConsistent(Mount(location), events);
  }

  // ---------------------------------------------------------------------------
  // The component
  // ---------------------------------------------------------------------------

  /** SentenceView: its state cells as fields; one method per event. */
  class SentenceView {
    var location: Option<LocationState>
    var sentence: Option<Sentence>
    var nativeAudio: Option<Handle>
    var recordedAudio: Option<Handle>
    var recording: bool
    var recordButtonColor: string
    var recordIcon: Icon
    var transcription: Option<Transcription>
    var urls: nat
    var issued: seq<Request>

    function State(): Session
      reads this
    {
      Session(location, sentence, nativeAudio, recordedAudio, recording,
              recordButtonColor, recordIcon, transcription, urls, issued)
    }

    ghost predicate Valid()
      reads this
    {
      Consistent(State())
    }

    /** `URL.createObjectURL`: a URL no earlier call returned. */
    method CreateObjectUrl() returns (url: Handle)
      modifies this`urls
      ensures url == ObjectUrl(old(urls)) && urls == old(urls) + 1
    {
      url := ObjectUrl(urls);
      urls := urls + 1;
    }

    /** Mounting at `location`: the initial cells, then every effect once. */
    constructor (location: Option<LocationState>)
      ensures Valid() && State() == Mount(location)
    {
      this.location := None;
      sentence := None;
      nativeAudio := None;
      recordedAudio := None;
      recording := false;
      recordButtonColor := "teal";
      recordIcon := MicIcon;
      transcription := None;
      urls := 0;
      issued := [];
      new;
      Select(location);
    }

    /** The router location changes: the reset effect, then the three fetch effects. */
    method Select(location: Option<LocationState>)
      requires Valid()
      modifies this
      ensures Valid() && State() == Step(old(State()), LocationChanged(location))
      ensures sentence.None? && nativeAudio.None? && recordedAudio.None? && transcription.None?
      ensures recording == old(recording) && urls == old(urls)
      ensures issued == old(issued) + FetchesFor(location)
    {
      this.location := location;
      sentence := None;
      nativeAudio := None;
      recordedAudio := None;
      transcription := None;
      if location.Some? {
        issued := issued + [FetchSentence(location.value.index)];
        issued := issued + [FetchSentenceAudio(location.value.index, NativeTarget)];
        issued := issued + [FetchSentenceAudio(location.value.index, RecordedTarget)];
      }
      StepKeepsConsistent(old(State()), LocationChanged(location));
    }

    /** The sentence fetch completes; its data is installed as it is. */
    method SentenceLoaded(data: Option<Sentence>)
      requires Valid()
      modifies this
      ensures Valid() && State() == Step(old(State()), SentenceResolved(data))
      ensures sentence == data
    {
      sentence := data;
    }

    /** The native audio fetch completes; a non-null file gets a new URL. */
    method NativeAudioLoaded(blob: Option<Blob>)
      requires Valid()
      modifies this
      ensures Valid() && State() == Step(old(State()), NativeAudioResolved(blob))
      ensures blob.None? ==> nativeAudio == old(nativeAudio)
      ensures blob.Some? ==> nativeAudio == Some(ObjectUrl(old(urls)))
    {
      if blob.Some? {
        var url := CreateObjectUrl();
        nativeAudio := Some(url);
      }
    }

    /** The second audio fetch completes; a non-null file gets a new URL, and
        the effect on `recordedAudio` posts it for transcription. */
    method RecordedAudioLoaded(blob: Option<Blob>)
      requires Valid()
      modifies this
      ensures Valid() && State() == Step(old(State()), RecordedAudioResolved(blob))
      ensures blob.None? ==> recordedAudio == old(recordedAudio) && issued == old(issued)
      ensures blob.Some? ==>
        recordedAudio == Some(ObjectUrl(old(urls))) && issued == old(issued) + [PostTranscribe(recordedAudio.value)]
    {
      if blob.Some? {
        var url := CreateObjectUrl();
        recordedAudio := Some(url);
        issued := issued + [PostTranscribe(url)];
      }
      StepKeepsConsistent(old(State()), RecordedAudioResolved(blob));
    }

    /** A click on the record button: flip the flag, then the button effect. */
    method ToggleRecording()
      requires Valid()
      modifies this
      ensures Valid() && State() == Step(old(State()), RecordClicked)
      ensures recording == !old(recording)
      ensures recordButtonColor == (if recording then "red" else "teal")
      ensures recordIcon == (if recording then PauseIcon else MicIcon)
    {
      recording := !recording;
      if recording {
        recordButtonColor := "red";
        recordIcon := PauseIcon;
      } else {
        recordButtonColor := "teal";
        recordIcon := MicIcon;
      }
    }

    /** The transcription request completes; its data is installed as it is. */
    method TranscriptionLoaded(data: Option<Transcription>)
      requires Valid()
      modifies this
      ensures Valid() && State() == Step(old(State()), TranscriptionResolved(data))
      ensures transcription == data
    {
      transcription := data;
    }
  }
}
