/**
 * The beauty-analysis chat: an append-only message log, a send box that ignores blank
 * input and answers with one of three canned replies, and a simulated analysis that moves
 * a progress value through a fixed five-step schedule and delivers its result at the last
 * step.
 *
 * Each timer callback is an explicit step method. Message ids and timestamps come from
 * the clock and are left out; the random reply choice is a parameter.
 */
module AnalysisChat {
  import opened Wrappers
  import Text
  import UploadZone
  import AnalysisProgress

  datatype Sender = User | Bot

  datatype MediaKind = Photo | Video

  /** What a message says, by kind; the fixed texts are named rather than spelled out. */
  datatype Content =
    | Greeting
    | Typed(text: string)
    | CannedReply(choice: nat)
    | UploadedNote(kind: MediaKind, fileName: string)
    | AnalysingNote(kind: MediaKind)
    | ResultSummary

  datatype Message = Message(sender: Sender, content: Content, isAnalysis: bool)

  /** The number of canned bot replies. */
  const ReplyCount: nat := 3

  /** The progress reached at each step of the simulated analysis. */
  const StepProgress: seq<int> := [20, 40, 60, 80, 100]

  /** Step `index` fires `(index + 1) * 1500` milliseconds after the analysis starts. */
  function StepDelay(index: nat): (ms: nat)
    ensures ms >= 1500
  {
    (index + 1) * 1500
  }

  /** Later steps fire later and report more progress; the last reports 100. */
  lemma ScheduleStrictlyIncreasing(i: nat, j: nat)
    requires i < j < |StepProgress|
    ensures StepProgress[i] < StepProgress[j]
    ensures StepDelay(i) < StepDelay(j)
    ensures StepProgress[|StepProgress| - 1] == 100
  {
  }

  /** An uploaded file is labelled a video exactly when its type starts with "video/". */
  function KindOf(f: UploadZone.DroppedFile): (k: MediaKind)
    ensures k == Video <==> Text.StartsWith(f.mimeType, "video/")
  {
    if Text.StartsWith(f.mimeType, "video/") then Video else Photo
  }

  /** A file the drop zone accepts and this panel labels a photo has an image type. */
  lemma AcceptedPhotoIsImage(f: UploadZone.DroppedFile)
    requires UploadZone.IsValid(f) && KindOf(f) == Photo
    ensures Text.StartsWith(f.mimeType, "image/")
  {
  }

  /** The stage each step of the schedule reports: every stage once, in pipeline order. */
  lemma ScheduleVisitsStagesInOrder(i: nat)
    requires i < |StepProgress|
    ensures AnalysisProgress.Order(AnalysisProgress.StageOf(StepProgress[i])) == i
  {
  }

  class Chat {
    var messages: seq<Message>
    var inputMessage: string
    var isAnalyzing: bool
    var analysisProgress: int
    /** Bot replies scheduled and not yet delivered. */
    var pendingReplies: nat
    /** Whether an analysis is under way, and how many of its steps have fired. */
    var analysisUnderWay: bool
    var stepsDone: nat

    /**
     * The busy flag is set exactly while an analysis is under way, and the progress shown
     * is that of the last step fired (0 before the first).
     */
    ghost predicate Valid()
      reads this
    {
      && (isAnalyzing <==> analysisUnderWay)
      && (analysisUnderWay ==> stepsDone < |StepProgress|)
      && (analysisUnderWay ==> analysisProgress == if stepsDone == 0 then 0 else StepProgress[stepsDone - 1])
    }

    /**
     * While the progress panel is on screen (the busy flag is set) the progress is one of
     * 0, 20, 40, 60 and 80: the last step clears the flag as it sets 100, so the panel never
     * reaches its completion notice or its final stage.
     */
    lemma PanelNeverShowsCompletion()
      requires Valid() && isAnalyzing
      ensures analysisProgress in {0, 20, 40, 60, 80}
      ensures !AnalysisProgress.CompletionShown(analysisProgress)
      ensures AnalysisProgress.StageOf(analysisProgress) != AnalysisProgress.HealthInsights
    {
    }

    /** One bot greeting; empty input; nothing under way. */
    constructor ()
      ensures Valid()
      ensures messages == [Message(Bot, Greeting, false)] && inputMessage == ""
      ensures !isAnalyzing && analysisProgress == 0 && pendingReplies == 0
    {
      messages := [Message(Bot, Greeting, false)];
      inputMessage := "";
      isAnalyzing := false;
      analysisProgress := 0;
      pendingReplies := 0;
      analysisUnderWay := false;
      stepsDone := 0;
    }

    /** The message box. */
    method SetInput(text: string)
      modifies this
      ensures inputMessage == text && messages == old(messages)
      ensures isAnalyzing == old(isAnalyzing) && analysisProgress == old(analysisProgress)
      ensures pendingReplies == old(pendingReplies)
      ensures analysisUnderWay == old(analysisUnderWay) && stepsDone == old(stepsDone)
    {
      inputMessage := text;
    }

    /** `addMessage`: appends one message and changes nothing else. */
    method AddMessage(sender: Sender, content: Content, isAnalysis: bool)
      modifies this
      ensures messages == old(messages) + [Message(sender, content, isAnalysis)]
      ensures inputMessage == old(inputMessage) && isAnalyzing == old(isAnalyzing)
      ensures analysisProgress == old(analysisProgress) && pendingReplies == old(pendingReplies)
      ensures analysisUnderWay == old(analysisUnderWay) && stepsDone == old(stepsDone)
    {
      messages := messages + [Message(sender, content, isAnalysis)];
    }

    /**
     * `handleSendMessage`: blank input changes nothing; otherwise the text is appended as a
     * user message, a bot reply is scheduled and the input is cleared.
     */
    method HandleSendMessage()
      requires Valid()
      modifies this
      ensures Valid()
      ensures Text.IsBlank(old(inputMessage)) ==>
        messages == old(messages) && inputMessage == old(inputMessage) && pendingReplies == old(pendingReplies)
      ensures !Text.IsBlank(old(inputMessage)) ==>
        && messages == old(messages) + [Message(User, Typed(old(inputMessage)), false)]
        && inputMessage == "" && pendingReplies == old(pendingReplies) + 1
      ensures isAnalyzing == old(isAnalyzing) && analysisProgress == old(analysisProgress)
      ensures analysisUnderWay == old(analysisUnderWay) && stepsDone == old(stepsDone)
    {
      if Text.IsBlank(inputMessage) {
        return;
      }
      AddMessage(User, Typed(inputMessage), false);
      pendingReplies := pendingReplies + 1;
      inputMessage := "";
    }

    /** The reply timer: appends canned reply number `choice` as a bot message. */
    method DeliverBotReply(choice: nat)
      requires Valid() && pendingReplies > 0 && choice < ReplyCount
      modifies this
      ensures Valid()
      ensures messages == old(messages) + [Message(Bot, CannedReply(choice), false)]
      ensures pendingReplies == old(pendingReplies) - 1 && inputMessage == old(inputMessage)
      ensures isAnalyzing == old(isAnalyzing) && analysisProgress == old(analysisProgress)
      ensures analysisUnderWay == old(analysisUnderWay) && stepsDone == old(stepsDone)
    {
      AddMessage(Bot, CannedReply(choice), false);
      pendingReplies := pendingReplies - 1;
    }

    /** The start of `simulateFaceAnalysis`: busy, progress 0, no step fired yet. */
    method StartAnalysis()
      requires Valid() && !analysisUnderWay
      modifies this
      ensures Valid()
      ensures isAnalyzing && analysisProgress == 0 && analysisUnderWay && stepsDone == 0
      ensures messages == old(messages) && inputMessage == old(inputMessage)
      ensures pendingReplies == old(pendingReplies)
    {
      isAnalyzing := true;
      analysisProgress := 0;
      analysisUnderWay := true;
      stepsDone := 0;
    }

    /**
     * One step timer of the analysis: the progress moves to the step's value. Only the last
     * step resolves the analysis: it clears the busy flag, and the awaiting upload handler
     * then appends the result message (the continuation runs before any other timer).
     */
    method AnalysisStep() returns (resolved: bool)
      requires Valid() && analysisUnderWay
      modifies this
      ensures Valid()
      ensures analysisProgress == StepProgress[old(stepsDone)] && stepsDone == old(stepsDone) + 1
      ensures resolved <==> old(stepsDone) == |StepProgress| - 1
      ensures isAnalyzing == !resolved && analysisUnderWay == !resolved
      ensures resolved ==> messages == old(messages) + [Message(Bot, ResultSummary, false)]
      ensures !resolved ==> messages == old(messages)
      ensures inputMessage == old(inputMessage) && pendingReplies == old(pendingReplies)
    {
      analysisProgress := StepProgress[stepsDone];
      resolved := stepsDone == |StepProgress| - 1;
      stepsDone := stepsDone + 1;
      if resolved {
        isAnalyzing := false;
        analysisUnderWay := false;
        AddMessage(Bot, ResultSummary, false);
      }
    }

    /**
     * The step timers of one analysis firing in schedule order: the progress values seen are
     * exactly the schedule, and the log gains the one result message.
     */
    method RunSchedule() returns (observed: seq<int>)
      requires Valid() && analysisUnderWay && stepsDone == 0
      modifies this
      ensures Valid()
      ensures observed == StepProgress
      ensures !isAnalyzing && analysisProgress == 100
      ensures messages == old(messages) + [Message(Bot, ResultSummary, false)]
      ensures inputMessage == old(inputMessage) && pendingReplies == old(pendingReplies)
    {
      observed := [];
      var index := 0;
      while index < |StepProgress|
        invariant Valid() && 0 <= index <= |StepProgress|
        invariant stepsDone == index && observed == StepProgress[..index]
        invariant analysisUnderWay <==> index < |StepProgress|
        invariant index < |StepProgress| ==> messages == old(messages)
        invariant index == |StepProgress| ==> messages == old(messages) + [Message(Bot, ResultSummary, false)]
        invariant index > 0 ==> analysisProgress == StepProgress[index - 1]
        invariant inputMessage == old(inputMessage) && pendingReplies == old(pendingReplies)
      {
        var resolved := AnalysisStep();
        observed := observed + [analysisProgress];
        index := index + 1;
      }
    }

    /**
     * `handleFileUpload`: an empty list does nothing. Otherwise only the first file is
     * used: a user note naming it and a bot note (marked as analysis) are appended, both
     * labelling it a video or a photo, and the analysis starts. The upload zone is disabled
     * while an analysis runs, so no analysis is under way when this is called.
     */
    method HandleFileUpload(files: seq<UploadZone.DroppedFile>) returns (kind: Option<MediaKind>)
      requires Valid() && !analysisUnderWay
      modifies this
      ensures Valid()
      ensures files == [] ==> kind == None && messages == old(messages) && !analysisUnderWay
      ensures files != [] ==>
        && kind == Some(KindOf(files[0]))
        && messages == old(messages) + [
             Message(User, UploadedNote(KindOf(files[0]), files[0].name), false),
             Message(Bot, AnalysingNote(KindOf(files[0])), true)]
        && isAnalyzing && analysisProgress == 0 && analysisUnderWay && stepsDone == 0
      ensures inputMessage == old(inputMessage) && pendingReplies == old(pendingReplies)
    {
      if |files| == 0 {
        return None;
      }
      var file := files[0];
      var k := KindOf(file);
      AddMessage(User, UploadedNote(k, file.name), false);
      AddMessage(Bot, AnalysingNote(k), true);
      StartAnalysis();
      kind := Some(k);
    }
  }
}
