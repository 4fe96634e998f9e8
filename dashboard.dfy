/** The detection dashboard (app/dashboard/page.tsx): mock detections from
    two fixed tables, a newest-first history of at most five entries, a mood
    score looked up from the emotion, and the flags of the camera, the
    microphone and the image upload. */
module Dashboard {
  import opened Wrappers
  import opened Js

  /** A mock detection: its name and confidence in percent. */
  datatype Detection = Detection(name: string, confidence: int)

  const Gestures: seq<Detection> := [
    Detection("Peace", 95), Detection("Thumbs Up", 88), Detection("Wave", 92),
    Detection("Stop", 85), Detection("OK", 90), Detection("Love You", 87)]

  const Emotions: seq<Detection> := [
    Detection("Happy", 92), Detection("Neutral", 78), Detection("Surprised", 85),
    Detection("Sad", 72), Detection("Angry", 68), Detection("Tired", 80)]

  datatype Kind = GestureKind | EmotionKind | SpeechKind

  /** One history entry; its id and timestamp come from the clock and the
      random generator and are given by the caller. */
  datatype HistoryItem = HistoryItem(id: string, kind: Kind, content: string, confidence: Option<int>, timestamp: int)

  const HistoryCap := 5

  /** `[item, ...prev.slice(0, 4)]`: a live gesture or a final speech result
      goes first; the four newest old entries follow in their order. */
  function PushDetection(prev: seq<HistoryItem>, item: HistoryItem): (r: seq<HistoryItem>)
    ensures |r| == Min(|prev| + 1, HistoryCap)
    ensures r[0] == item
    ensures forall i :: 1 <= i < |r| ==> r[i] == prev[i - 1]
  {
    [item] + Slice(prev, 0, HistoryCap - 1)
  }

  /** `[gestureItem, emotionItem, ...prev.slice(0, 3)]`: an analysed upload
      puts its gesture, then its emotion, before the three newest old entries. */
  function PushUpload(prev: seq<HistoryItem>, gesture: HistoryItem, emotion: HistoryItem): (r: seq<HistoryItem>)
    ensures |r| == Min(|prev| + 2, HistoryCap)
    ensures r[0] == gesture && r[1] == emotion
    ensures forall i :: 2 <= i < |r| ==> r[i] == prev[i - 2]
  {
    [gesture, emotion] + Slice(prev, 0, HistoryCap - 2)
  }

  /** Both inserts are "prepend, then keep the five newest". */
  lemma {:induction false} InsertsArePrependAndCap(prev: seq<HistoryItem>, item: HistoryItem, gesture: HistoryItem, emotion: HistoryItem)
    ensures PushDetection(prev, item) == Slice([item] + prev, 0, HistoryCap)
    ensures PushUpload(prev, gesture, emotion) == Slice([gesture, emotion] + prev, 0, HistoryCap)
  {
    var a, b := PushDetection(prev, item), Slice([item] + prev, 0, HistoryCap);
    assert |a| == |b|;
    forall i | 0 <= i < |a| ensures a[i] == b[i] {
      if i > 0 { assert b[i] == ([item] + prev)[i]; }
    }
    var c, d := PushUpload(prev, gesture, emotion), Slice([gesture, emotion] + prev, 0, HistoryCap);
    assert |c| == |d|;
    forall i | 0 <= i < |c| ensures c[i] == d[i] {
      if i > 1 { assert d[i] == ([gesture, emotion] + prev)[i]; }
    }
  }

  /** An upload insert is the emotion pushed, then the gesture pushed. */
  lemma {:induction false} UploadIsTwoPushes(prev: seq<HistoryItem>, gesture: HistoryItem, emotion: HistoryItem)
    ensures PushUpload(prev, gesture, emotion) == PushDetection(PushDetection(prev, emotion), gesture)
  {
    var a, b := PushUpload(prev, gesture, emotion), PushDetection(PushDetection(prev, emotion), gesture);
    assert |a| == |b|;
    forall i | 0 <= i < |a| ensures a[i] == b[i] {
    }
  }

  /** The mood score of each emotion name. */
  const EmotionScores: map<string, int> :=
    map["Happy" := 90, "Neutral" := 70, "Surprised" := 75, "Sad" := 40, "Angry" := 30, "Tired" := 50]

  const MoodScores: set<int> := {90, 70, 75, 40, 30, 50}

  /** `emotionScores[name] || 70`. */
  function MoodScore(name: string): (r: int)
    ensures r in MoodScores
    ensures name in EmotionScores ==> r == EmotionScores[name]
    ensures name !in EmotionScores ==> r == 70
  {
    if name in EmotionScores && EmotionScores[name] != 0 then EmotionScores[name] else 70
  }

  /** Every emotion the dashboard can pick has its own score; the fallback
      is never used for them. */
  lemma {:induction false} EveryEmotionIsScored(i: int)
    requires 0 <= i < |Emotions|
    ensures Emotions[i].name in EmotionScores
    ensures MoodScore(Emotions[i].name) == EmotionScores[Emotions[i].name]
  {
    assert Emotions[i].name in {"Happy", "Neutral", "Surprised", "Sad", "Angry", "Tired"};
  }

  /** The result of analysing an uploaded image. */
  datatype ImageResult = ImageResult(gesture: Detection, emotion: Detection)

  /** The component's state, as a value. */
  datatype Ui = Ui(
    isLiveDetection: bool,
    cameraEnabled: bool,
    micEnabled: bool,
    gesturesEnabled: bool,
    emotionsEnabled: bool,
    currentGesture: Detection,
    currentEmotion: Detection,
    speechText: string,
    history: seq<HistoryItem>,
    moodScore: int,
    isListening: bool,
    recognitionError: string,
    uploadedImage: Option<string>,
    isUploadModalOpen: bool,
    isAnalyzingImage: bool,
    imageResults: Option<ImageResult>)

  /** What every reachable state satisfies. */
  ghost predicate Consistent(v: Ui) {
    && |v.history| <= HistoryCap
    && v.currentGesture in Gestures
    && v.currentEmotion in Emotions
    && v.moodScore in MoodScores
  }

  /** The body of the 3-second interval, which runs only during live
      detection. `gi` and `ei` are the random picks. */
  function Tick(v: Ui, gi: nat, ei: nat, id: string, time: int): (r: Ui)
    requires gi < |Gestures| && ei < |Emotions|
    ensures Consistent(v) ==> Consistent(r)
    ensures !v.isLiveDetection ==> r == v
    ensures !v.gesturesEnabled ==> r.currentGesture == v.currentGesture && r.history == v.history
    ensures !v.emotionsEnabled ==> r.currentEmotion == v.currentEmotion && r.moodScore == v.moodScore
    ensures v.isLiveDetection && v.gesturesEnabled ==>
      && r.currentGesture == Gestures[gi]
      && r.history == PushDetection(v.history, HistoryItem(id, GestureKind, Gestures[gi].name, Some(Gestures[gi].confidence), time))
    ensures v.isLiveDetection && v.emotionsEnabled ==>
      r.currentEmotion == Emotions[ei] && r.moodScore == MoodScore(Emotions[ei].name)
    ensures r.(currentGesture := v.currentGesture, history := v.history,
               currentEmotion := v.currentEmotion, moodScore := v.moodScore) == v
  {
    if !v.isLiveDetection then v
    else
      var g := Gestures[gi];
      var e := Emotions[ei];
      var afterGesture :=
        if v.gesturesEnabled then
          v.(currentGesture := g,
             history := PushDetection(v.history, HistoryItem(id, GestureKind, g.name, Some(g.confidence), time)))
        else v;
      if v.emotionsEnabled then afterGesture.(currentEmotion := e, moodScore := MoodScore(e.name))
      else afterGesture
  }

  /** A live tick with both detectors on shows the picked gesture and
      emotion, records the gesture first in the history, and scores the mood
      by the table. */
  lemma {:induction false} LiveTickRecords(v: Ui, gi: nat, ei: nat, id: string, time: int)
    requires gi < |Gestures| && ei < |Emotions|
    requires v.isLiveDetection && v.gesturesEnabled && v.emotionsEnabled
    ensures var r := Tick(v, gi, ei, id, time);
      && r.currentGesture == Gestures[gi] && r.currentEmotion == Emotions[ei]
      && r.history[0].content == Gestures[gi].name && r.history[0].kind == GestureKind
      && r.moodScore == EmotionScores[Emotions[ei].name]
  {
    EveryEmotionIsScored(ei);
  }

  /** The dashboard component's state. */
  class DashboardState {
    var isLiveDetection: bool
    var cameraEnabled: bool
    var micEnabled: bool
    var gesturesEnabled: bool
    var emotionsEnabled: bool
    var currentGesture: Detection
    var currentEmotion: Detection
    var speechText: string
    var history: seq<HistoryItem>
    var moodScore: int
    var isListening: bool
    var recognitionError: string
    var uploadedImage: Option<string>
    var isUploadModalOpen: bool
    var isAnalyzingImage: bool
    var imageResults: Option<ImageResult>
    /** Whether the browser offers speech recognition. */
    const hasRecognizer: bool

    function View(): Ui
      reads this
    {
      Ui(isLiveDetection, cameraEnabled, micEnabled, gesturesEnabled, emotionsEnabled,
         currentGesture, currentEmotion, speechText, history, moodScore, isListening,
         recognitionError, uploadedImage, isUploadModalOpen, isAnalyzingImage, imageResults)
    }

    ghost predicate Valid()
      reads this
    {
      Consistent(View())
    }

    /** The initial state of every `useState`. */
    constructor (hasRecognizer: bool)
      ensures Valid() && this.hasRecognizer == hasRecognizer
      ensures View() == Ui(false, false, false, true, true, Gestures[0], Emotions[0], "", [], 75,
                           false, "", None, false, false, None)
    {
      this.hasRecognizer := hasRecognizer;
      isLiveDetection, cameraEnabled, micEnabled := false, false, false;
      gesturesEnabled, emotionsEnabled := true, true;
      currentGesture, currentEmotion := Gestures[0], Emotions[0];
      speechText, history, moodScore := "", [], 75;
      isListening, recognitionError := false, "";
      uploadedImage, isUploadModalOpen, isAnalyzingImage, imageResults := None, false, false, None;
    }

    /** `toggleMicrophone`; `permissionGranted` is the outcome of the
      browser's permission request. Only the two flags and the error can
      change. */
    method ToggleMicrophone(permissionGranted: bool)
      requires Valid()
      modifies this`isListening, this`micEnabled, this`recognitionError
      ensures Valid()
      ensures !hasRecognizer ==>
        isListening == old(isListening) && micEnabled == old(micEnabled) && recognitionError == old(recognitionError)
      ensures hasRecognizer && old(isListening) ==>
        !isListening && !micEnabled && recognitionError == old(recognitionError)
      ensures hasRecognizer && !old(isListening) && permissionGranted ==>
        isListening && micEnabled && recognitionError == ""
      ensures hasRecognizer && !old(isListening) && !permissionGranted ==>
        !isListening && micEnabled == old(micEnabled) && recognitionError == "Microphone access denied"
    {
      if !hasRecognizer {
        return;
      }
      if isListening {
        isListening := false;
        micEnabled := false;
      } else if permissionGranted {
        isListening := true;
        micEnabled := true;
        recognitionError := "";
      } else {
        recognitionError := "Microphone access denied";
      }
    }

    /** `startLiveDetection`; attaching the camera stream is outside the model. */
    method StartLiveDetection()
      requires Valid()
      modifies this`isLiveDetection, this`cameraEnabled
      ensures Valid()
      ensures isLiveDetection && cameraEnabled
    {
      isLiveDetection := true;
      cameraEnabled := true;
    }

    /** `stopLiveDetection`. */
    method StopLiveDetection()
      requires Valid()
      modifies this`isLiveDetection, this`cameraEnabled, this`micEnabled, this`speechText, this`isListening
      ensures Valid()
      ensures !isLiveDetection && !cameraEnabled && !micEnabled && !isListening && speechText == ""
    {
      isLiveDetection := false;
      cameraEnabled := false;
      micEnabled := false;
      speechText := "";
      isListening := false;
    }

    /** One firing of the detection interval. */
    method OnTick(gi: nat, ei: nat, id: string, time: int)
      requires Valid()
      requires gi < |Gestures| && ei < |Emotions|
      modifies this`currentGesture, this`history, this`currentEmotion, this`moodScore
      ensures Valid()
      ensures View() == Tick(old(View()), gi, ei, id, time)
    {
      if !isLiveDetection {
        return;
      }
      if gesturesEnabled {
        var g := Gestures[gi];
        currentGesture := g;
        history := PushDetection(history, HistoryItem(id, GestureKind, g.name, Some(g.confidence), time));
      }
      if emotionsEnabled {
        var e := Emotions[ei];
        currentEmotion := e;
        moodScore := MoodScore(e.name);
      }
    }

    /** A speech recognition result: the transcript is shown, and a final one
      is recorded in the history with the given confidence. */
    method OnSpeechResult(transcript: string, isFinal: bool, id: string, confidence: int, time: int)
      requires Valid()
      modifies this`speechText, this`history
      ensures Valid()
      ensures speechText == transcript
      ensures !isFinal ==> history == old(history)
      ensures isFinal ==> history == PushDetection(old(history), HistoryItem(id, SpeechKind, transcript, Some(confidence), time))
    {
      speechText := transcript;
      if isFinal {
        history := PushDetection(history, HistoryItem(id, SpeechKind, transcript, Some(confidence), time));
      }
    }

    /** The recognizer reports an error: it is shown and listening stops. */
    method OnRecognitionError(error: string)
      requires Valid()
      modifies this`recognitionError, this`isListening
      ensures Valid()
      ensures recognitionError == error && !isListening
    {
      recognitionError := error;
      isListening := false;
    }

    /** The recognizer ends. */
    method OnRecognitionEnd()
      requires Valid()
      modifies this`isListening
      ensures Valid()
      ensures !isListening
    {
      isListening := false;
    }

    /** The first part of `handleFileChange`: no file, or a file whose type is
      not an image, changes nothing; an image is shown and analysis starts.
      `url` is the object URL the browser makes for it. */
    method SelectFile(fileType: Option<string>, url: string)
      requires Valid()
      modifies this`uploadedImage, this`isUploadModalOpen, this`isAnalyzingImage
      ensures Valid()
      ensures fileType.None? || !("image/" <= fileType.value) ==>
        uploadedImage == old(uploadedImage) && isUploadModalOpen == old(isUploadModalOpen)
        && isAnalyzingImage == old(isAnalyzingImage)
      ensures fileType.Some? && "image/" <= fileType.value ==>
        uploadedImage == Some(url) && isUploadModalOpen && isAnalyzingImage
    {
      if fileType.None? {
        return;
      }
      if !("image/" <= fileType.value) {
        return;
      }
      uploadedImage := Some(url);
      isUploadModalOpen := true;
      isAnalyzingImage := true;
    }

    /** The delayed part of `handleFileChange`: the picked results are shown
      and recorded, gesture first. */
    method FinishImageAnalysis(gi: nat, ei: nat, gestureId: string, emotionId: string, time: int)
      requires Valid()
      requires gi < |Gestures| && ei < |Emotions|
      modifies this`imageResults, this`history, this`isAnalyzingImage
      ensures Valid()
      ensures imageResults == Some(ImageResult(Gestures[gi], Emotions[ei]))
      ensures history == PushUpload(old(history),
        HistoryItem(gestureId, GestureKind, Gestures[gi].name, Some(Gestures[gi].confidence), time),
        HistoryItem(emotionId, EmotionKind, Emotions[ei].name, Some(Emotions[ei].confidence), time))
      ensures !isAnalyzingImage
    {
      var g, e := Gestures[gi], Emotions[ei];
      imageResults := Some(ImageResult(g, e));
      history := PushUpload(history,
        HistoryItem(gestureId, GestureKind, g.name, Some(g.confidence), time),
        HistoryItem(emotionId, EmotionKind, e.name, Some(e.confidence), time));
      isAnalyzingImage := false;
    }

    /** `cleanupUploadedImage`: clears the image and its results, only when
      an image is set. */
    method CleanupUploadedImage()
      requires Valid()
      modifies this`uploadedImage, this`imageResults
      ensures Valid()
      ensures old(uploadedImage).None? ==> imageResults == old(imageResults)
      ensures uploadedImage.None?
      ensures old(uploadedImage).Some? ==> imageResults.None?
    {
      if uploadedImage.Some? {
        uploadedImage := None;
        imageResults := None;
      }
    }

    /** `closeUploadModal`. */
    method CloseUploadModal()
      requires Valid()
      modifies this`isUploadModalOpen, this`uploadedImage, this`imageResults
      ensures Valid()
      ensures !isUploadModalOpen && uploadedImage.None?
      ensures old(uploadedImage).None? ==> imageResults == old(imageResults)
      ensures old(uploadedImage).Some? ==> imageResults.None?
    {
      isUploadModalOpen := false;
      CleanupUploadedImage();
    }
  }
}
