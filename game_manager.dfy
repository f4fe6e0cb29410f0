/** The WebSocket connection registry and the per-mission dialogue session:
    the queue of generated lines, the running dialogue history, the refill
    rule and the speaker-gender lookup. */
module GameManager {
  import opened Wrappers
  import opened Schema

  /** Mission ids are UUIDs; only their identity matters here. */
  type MissionId = string

  /** An accepted WebSocket, identified by a handle. */
  datatype WebSocket = WebSocket(handle: nat)

  /** A text frame handed to a socket's `send_text`. */
  datatype Outgoing = Outgoing(socket: WebSocket, text: string)

  const NOT_READY_MESSAGE: string := "Error: Mission not ready."

  /** A refill is requested while fewer lines than this are queued. */
  const REFILL_THRESHOLD: nat := 2

  /** The gender used when no speaker has the line's name. */
  const DEFAULT_GENDER: string := "female"

  /** The registry of open connections, one per mission. `sent` is the
      sequence of text frames the registry has sent, in order. */
  class ConnectionManager {
    var activeConnections: map<MissionId, WebSocket>
    var sent: seq<Outgoing>

    constructor ()
      ensures activeConnections == map[] && sent == []
    {
      activeConnections := map[];
      sent := [];
    }

    /** Register `websocket` for `missionId`, replacing any earlier one. */
    method Connect(websocket: WebSocket, missionId: MissionId)
      modifies this`activeConnections
      ensures activeConnections == old(activeConnections)[missionId := websocket]
      ensures forall m :: m in old(activeConnections) && m != missionId ==>
                m in activeConnections && activeConnections[m] == old(activeConnections)[m]
    {
      activeConnections := activeConnections[missionId := websocket];
    }

    /** Forget `missionId`; nothing happens when it is not registered, so a
        second call changes nothing. */
    method Disconnect(missionId: MissionId)
      modifies this`activeConnections
      ensures activeConnections == old(activeConnections) - {missionId}
      ensures missionId !in old(activeConnections) ==> activeConnections == old(activeConnections)
    {
      if missionId in activeConnections {
        activeConnections := activeConnections - {missionId};
      }
    }

    /** Send `message` to the mission's socket if it has one; otherwise do
        nothing. */
    method SendToClient(message: string, missionId: MissionId)
      modifies this`sent
      ensures missionId in activeConnections ==>
                sent == old(sent) + [Outgoing(activeConnections[missionId], message)]
      ensures missionId !in activeConnections ==> sent == old(sent)
    {
      if missionId in activeConnections {
        sent := sent + [Outgoing(activeConnections[missionId], message)];
      }
    }
  }

  /** A mission can be played when it exists and has a non-empty stage-two
      prompt. */
  predicate MissionReady(mission: Option<PropagandaMission>) {
    mission.Some? && mission.value.dialogueGeneratorPrompt.Some?
    && mission.value.dialogueGeneratorPrompt.value != ""
  }

  /** The text one dialogue line adds to the history. */
  function HistoryEntry(d: DialogueLine): string {
    "\n" + d.speakerName + ": " + d.line
  }

  /** The history text a sequence of lines adds, one entry per line in
      order. */
  function HistoryText(lines: seq<DialogueLine>): string {
    if lines == [] then "" else HistoryText(lines[..|lines| - 1]) + HistoryEntry(lines[|lines| - 1])
  }

  /** The history of two batches is the history of the first followed by
      that of the second. */
  lemma {:induction false} HistoryTextAppend(a: seq<DialogueLine>, b: seq<DialogueLine>)
    ensures HistoryText(a + b) == HistoryText(a) + HistoryText(b)
  {
    if b == [] {
      assert a + b == a;
    } else {
      var ab := a + b;
      var front, last := b[..|b| - 1], b[|b| - 1];
      assert ab[..|ab| - 1] == a + front;
      assert ab[|ab| - 1] == last;
      HistoryTextAppend(a, front);
      calc {
        HistoryText(ab);
        HistoryText(a + front) + HistoryEntry(last);
        (HistoryText(a) + HistoryText(front)) + HistoryEntry(last);
        HistoryText(a) + (HistoryText(front) + HistoryEntry(last));
      }
    }
  }

  /** Every entry of the history starts with a newline and the speaker's
      name: the history of `lines` begins with the first line's entry. */
  lemma {:induction false} HistoryTextStartsWithFirst(lines: seq<DialogueLine>)
    requires lines != []
    ensures HistoryText(lines) == HistoryEntry(lines[0]) + HistoryText(lines[1..])
  {
    HistoryTextAppend([lines[0]], lines[1..]);
    assert [lines[0]] + lines[1..] == lines;
    assert [lines[0]][..0] == [];
  }

  /** The gender of the first speaker called `name`, or "female" when no
      speaker is. */
  function SpeakerGender(speakers: seq<Speaker>, name: string): (g: string)
    ensures (forall k :: 0 <= k < |speakers| ==> speakers[k].name != name) ==> g == DEFAULT_GENDER
    ensures forall k :: 0 <= k < |speakers| && speakers[k].name == name &&
                        (forall j :: 0 <= j < k ==> speakers[j].name != name) ==>
                          g == speakers[k].gender
  {
    if speakers == [] then DEFAULT_GENDER
    else if speakers[0].name == name then speakers[0].gender
    else SpeakerGender(speakers[1..], name)
  }

  /** Where a session's dialogue-generation task stands. */
  datatype TaskState = NoTask | Running | Cancelled

  /** One mission's game session. The queue is a sequence of lines, first to
      be spoken at the front. */
  class GameSession {
    const missionId: MissionId
    const manager: ConnectionManager
    var dialogueQueue: seq<DialogueLine>
    var speakers: seq<Speaker>
    var dialogueHistory: string
    var missionContext: string
    var isActive: bool
    var generationTask: TaskState

    constructor (missionId: MissionId, manager: ConnectionManager)
      ensures this.missionId == missionId && this.manager == manager
      ensures dialogueQueue == [] && speakers == [] && dialogueHistory == ""
      ensures missionContext == "" && isActive && generationTask == NoTask
    {
      this.missionId := missionId;
      this.manager := manager;
      dialogueQueue := [];
      speakers := [];
      dialogueHistory := "";
      missionContext := "";
      isActive := true;
      generationTask := NoTask;
    }

    /** Start the session for the mission the database returned (`None` when
        there is no such mission). A mission that is not ready gets the error
        message sent to its client and nothing else happens. */
    method Start(mission: Option<PropagandaMission>)
      modifies this, manager`sent
      ensures unchanged(manager`activeConnections)
      ensures dialogueQueue == old(dialogueQueue) && dialogueHistory == old(dialogueHistory)
      ensures isActive == old(isActive)
      ensures MissionReady(mission) ==>
                speakers == mission.value.generationResult.speakers &&
                missionContext == mission.value.dialogueGeneratorPrompt.value &&
                generationTask == Running && manager.sent == old(manager.sent)
      ensures !MissionReady(mission) ==>
                speakers == old(speakers) && missionContext == old(missionContext) &&
                generationTask == old(generationTask) &&
                (missionId in manager.activeConnections ==>
                  manager.sent == old(manager.sent) +
                    [Outgoing(manager.activeConnections[missionId], NOT_READY_MESSAGE)]) &&
                (missionId !in manager.activeConnections ==> manager.sent == old(manager.sent))
    {
      if !MissionReady(mission) {
        manager.SendToClient(NOT_READY_MESSAGE, missionId);
        return;
      }
      speakers := mission.value.generationResult.speakers;
      missionContext := mission.value.dialogueGeneratorPrompt.value;
      generationTask := Running;
    }

    /** Stop the session: it is no longer active and a started generation
        task is cancelled. */
    method Stop()
      modifies this`isActive, this`generationTask
      ensures !isActive
      ensures generationTask == (if old(generationTask) == NoTask then NoTask else Cancelled)
    {
      isActive := false;
      if generationTask != NoTask {
        generationTask := Cancelled;
      }
    }

    /** Queue the lines the generator produced for the current context and
        history, extending the history line by line; a failed generation
        (`Failure`) leaves both as they were. */
    method PopulateDialogueQueue(generated: Result<seq<DialogueLine>, string>)
      modifies this`dialogueQueue, this`dialogueHistory
      ensures generated.Failure? ==>
                dialogueQueue == old(dialogueQueue) && dialogueHistory == old(dialogueHistory)
      ensures generated.Success? ==>
                dialogueQueue == old(dialogueQueue) + generated.value &&
                dialogueHistory == old(dialogueHistory) + HistoryText(generated.value)
    {
      if generated.Failure? {
        return;
      }
      var newDialogues := generated.value;
      var i := 0;
      while i < |newDialogues|
        invariant 0 <= i <= |newDialogues|
        invariant dialogueQueue == old(dialogueQueue) + newDialogues[..i]
        invariant dialogueHistory == old(dialogueHistory) + HistoryText(newDialogues[..i])
      {
        var dialogue := newDialogues[i];
        dialogueQueue := dialogueQueue + [dialogue];
        dialogueHistory := dialogueHistory + HistoryEntry(dialogue);
        assert newDialogues[..i + 1][..i] == newDialogues[..i];
        assert newDialogues[..i + 1] == newDialogues[..i] + [dialogue];
        i := i + 1;
      }
      assert newDialogues[..i] == newDialogues;
    }

    /** One turn of the dialogue loop up to the text-to-speech request: refill
        the queue when it holds fewer than two lines (`generated` is what the
        generator returns if asked), then take the next line and look up its
        speaker's gender. `None` stands for an empty queue, on which the real
        loop waits. */
    method NextLine(generated: Result<seq<DialogueLine>, string>)
      returns (next: Option<(DialogueLine, string)>, refilled: bool)
      modifies this`dialogueQueue, this`dialogueHistory
      ensures refilled <==> |old(dialogueQueue)| < REFILL_THRESHOLD
      ensures !refilled ==> dialogueHistory == old(dialogueHistory)
      ensures refilled ==>
                dialogueHistory == old(dialogueHistory) +
                                   (if generated.Success? then HistoryText(generated.value) else "")
      ensures var queued := if refilled && generated.Success?
                            then old(dialogueQueue) + generated.value
                            else old(dialogueQueue);
              (queued == [] ==> next == None && dialogueQueue == []) &&
              (queued != [] ==> next == Some((queued[0], SpeakerGender(speakers, queued[0].speakerName)))
                                && dialogueQueue == queued[1..])
    {
      refilled := |dialogueQueue| < REFILL_THRESHOLD;
      if refilled {
        PopulateDialogueQueue(generated);
      }
      if dialogueQueue == [] {
        next := None;
        return;
      }
      var dialogueLine := dialogueQueue[0];
      dialogueQueue := dialogueQueue[1..];
      var speakerGender := SpeakerGender(speakers, dialogueLine.speakerName);
      next := Some((dialogueLine, speakerGender));
    }
  }
}
