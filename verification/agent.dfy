/**
 * The Santa call agent: who the caller is (taken from room or participant
 * metadata), which voice speaks a line, and how spoken lines and sound files
 * reach the audio source as 20 ms frames.
 */
module Agent {
  import opened Wrappers
  import opened Audio

  /** The TTS model names of the two voices. */
  const SantaVoice: string := "aura-2-draco-en"
  const ElfVoice: string := "aura-2-iris-en"

  /** A configured text-to-speech engine, known by its model name. */
  datatype Tts = Tts(model: string)

  /**
   * A metadata string as the room or a participant carries it, together with what
   * JSON decoding makes of it: `None` when decoding fails or gives no object.
   */
  datatype Metadata = Metadata(text: string, decoded: Option<map<string, string>>)

  /** What the agent knows about the caller. */
  datatype Caller = Caller(childName: string, gender: string, relationship: string, callId: Option<string>)

  /** The caller before any metadata is read. */
  const DefaultCaller: Caller := Caller("friend", "child", "family", None)

  /**
   * Reading one decoded metadata object: a missing key keeps the current name,
   * gender and relationship, while a missing `call_id` clears the call id.
   */
  function ApplyMetadata(c: Caller, meta: map<string, string>): (r: Caller)
    ensures "child_name" in meta ==> r.childName == meta["child_name"]
    ensures "child_name" !in meta ==> r.childName == c.childName
    ensures "gender" in meta ==> r.gender == meta["gender"]
    ensures "gender" !in meta ==> r.gender == c.gender
    ensures "relationship" in meta ==> r.relationship == meta["relationship"]
    ensures "relationship" !in meta ==> r.relationship == c.relationship
    ensures "call_id" in meta ==> r.callId == Some(meta["call_id"])
    ensures "call_id" !in meta ==> r.callId == None
  {
    Caller(
      if "child_name" in meta then meta["child_name"] else c.childName,
      if "gender" in meta then meta["gender"] else c.gender,
      if "relationship" in meta then meta["relationship"] else c.relationship,
      if "call_id" in meta then Some(meta["call_id"]) else None)
  }

  /** Decoding the chosen metadata: a decoding failure changes nothing. */
  function DecodeInto(c: Caller, m: Metadata): (r: Caller)
    ensures m.decoded.None? ==> r == c
    ensures m.decoded.Some? ==> r == ApplyMetadata(c, m.decoded.value)
  {
    match m.decoded
    case None => c
    case Some(meta) => ApplyMetadata(c, meta)
  }

  /** The index of the first participant whose metadata string is non-empty. */
  function FirstWithMetadata(participants: seq<Metadata>): (r: Option<nat>)
    ensures r.Some? ==> r.value < |participants| && participants[r.value].text != ""
    ensures r.Some? ==> forall j :: 0 <= j < r.value ==> participants[j].text == ""
    ensures r.None? ==> forall j :: 0 <= j < |participants| ==> participants[j].text == ""
  {
    if participants == [] then None
    else if participants[0].text != "" then Some(0)
    else match FirstWithMetadata(participants[1..])
      case None => None
      case Some(i) => Some(i + 1)
  }

  /** The metadata the agent reads: the room's when non-empty, else the first participant's. */
  function ChosenMetadata(room: Metadata, participants: seq<Metadata>): (r: Option<Metadata>)
    ensures r.Some? ==> r.value.text != ""
    ensures room.text != "" ==> r == Some(room)
    ensures room.text == "" && r.Some? ==> r.value in participants
    ensures r.None? <==> room.text == "" && forall j :: 0 <= j < |participants| ==> participants[j].text == ""
  {
    if room.text != "" then Some(room)
    else match FirstWithMetadata(participants)
      case None => None
      case Some(i) => Some(participants[i])
  }

  /** The caller after reading metadata, starting from `c`. */
  function ParsedCaller(c: Caller, room: Metadata, participants: seq<Metadata>): (r: Caller)
    ensures ChosenMetadata(room, participants).None? ==> r == c
    ensures ChosenMetadata(room, participants).Some? ==> r == DecodeInto(c, ChosenMetadata(room, participants).value)
  {
    match ChosenMetadata(room, participants)
    case None => c
    case Some(m) => DecodeInto(c, m)
  }

  /** Non-empty room metadata decides alone; the participants are never consulted. */
  lemma RoomMetadataWins(c: Caller, room: Metadata, participants: seq<Metadata>, others: seq<Metadata>)
    requires room.text != ""
    ensures ParsedCaller(c, room, participants) == ParsedCaller(c, room, others) == DecodeInto(c, room)
  {
  }

  /** Otherwise the first participant with non-empty metadata decides. */
  lemma FirstParticipantDecides(c: Caller, room: Metadata, participants: seq<Metadata>, i: nat)
    requires room.text == ""
    requires i < |participants| && participants[i].text != ""
    requires forall j :: 0 <= j < i ==> participants[j].text == ""
    ensures ParsedCaller(c, room, participants) == DecodeInto(c, participants[i])
  {
  }

  /** With no metadata anywhere the caller keeps its values, the defaults at call start. */
  lemma NoMetadataKeepsCaller(c: Caller, room: Metadata, participants: seq<Metadata>)
    requires room.text == ""
    requires forall j :: 0 <= j < |participants| ==> participants[j].text == ""
    ensures ParsedCaller(c, room, participants) == c
    ensures ParsedCaller(DefaultCaller, room, participants) == Caller("friend", "child", "family", None)
  {
  }

  /** Metadata that fails to decode leaves all four fields unchanged. */
  lemma DecodeFailureKeepsCaller(c: Caller, room: Metadata, participants: seq<Metadata>)
    requires ChosenMetadata(room, participants).Some?
    requires ChosenMetadata(room, participants).value.decoded.None?
    ensures ParsedCaller(c, room, participants) == c
  {
  }

  /** The word used for the child in Santa's greeting. */
  function ChildTerm(gender: string): (term: string)
    ensures term == "boy" <==> gender == "boy"
    ensures term == "girl" <==> gender != "boy"
  {
    if gender == "boy" then "boy" else "girl"
  }

  /** The default gender "child" is greeted as a girl. */
  lemma DefaultChildTermIsGirl()
    ensures ChildTerm(DefaultCaller.gender) == "girl"
  {
  }

  /** The engine `speak` uses for a voice. */
  function SelectTts(voice: string, santaTts: Option<Tts>, elfTts: Option<Tts>): (tts: Option<Tts>)
    ensures voice == "santa" ==> tts == santaTts
    ensures voice != "santa" ==> tts == elfTts
  {
    if voice == "santa" then santaTts else elfTts
  }

  /** With both engines set up, the Santa engine speaks exactly the "santa" voice. */
  lemma SantaEngineIffSantaVoice(voice: string)
    ensures SelectTts(voice, Some(Tts(SantaVoice)), Some(Tts(ElfVoice))) == Some(Tts(SantaVoice))
        <==> voice == "santa"
    ensures SelectTts(voice, Some(Tts(SantaVoice)), Some(Tts(ElfVoice))) == Some(Tts(ElfVoice))
        <==> voice != "santa"
  {
  }

  /**
   * The PCM that `speak` frames: only Santa's audio goes through the pitch and
   * speed transform; any other voice's is framed as synthesized.
   */
  function SpokenPcm(voice: string, synthesized: seq<Byte>, pitchSpeed: seq<Byte> -> seq<Byte>): (pcm: seq<Byte>)
    ensures voice == "santa" ==> pcm == pitchSpeed(synthesized)
    ensures voice != "santa" ==> pcm == synthesized
  {
    if voice == "santa" then pitchSpeed(synthesized) else synthesized
  }

  class SantaAgent {
    var childName: string
    var gender: string
    var relationship: string
    var callId: Option<string>
    var santaTts: Option<Tts>
    var elfTts: Option<Tts>
    var audioSource: AudioSource?

    function CallerInfo(): Caller
      reads this
    {
      Caller(childName, gender, relationship, callId)
    }

    constructor ()
      ensures CallerInfo() == DefaultCaller
      ensures santaTts == None && elfTts == None && audioSource == null
    {
      childName, gender, relationship, callId := "friend", "child", "family", None;
      santaTts, elfTts := None, None;
      audioSource := null;
    }

    /**
     * Reads the caller from the room metadata or, when that is empty, from the
     * first participant whose metadata is non-empty.
     */
    method ParseMetadata(room: Metadata, participants: seq<Metadata>)
      modifies this`childName, this`gender, this`relationship, this`callId
      ensures CallerInfo() == ParsedCaller(old(CallerInfo()), room, participants)
    {
      if room.text != "" {
        ReadMetadata(room);
        return;
      }
      var i := 0;
      while i < |participants|
        invariant 0 <= i <= |participants|
        invariant forall j :: 0 <= j < i ==> participants[j].text == ""
        invariant CallerInfo() == old(CallerInfo())
      {
        if participants[i].text != "" {
          FirstParticipantDecides(CallerInfo(), room, participants, i);
          ReadMetadata(participants[i]);
          return;
        }
        i := i + 1;
      }
      NoMetadataKeepsCaller(CallerInfo(), room, participants);
    }

    /** Copies the keys of one metadata object into the fields; a decoding failure changes nothing. */
    method ReadMetadata(m: Metadata)
      modifies this`childName, this`gender, this`relationship, this`callId
      ensures CallerInfo() == DecodeInto(old(CallerInfo()), m)
    {
      match m.decoded
      case None =>
      case Some(meta) =>
        childName := if "child_name" in meta then meta["child_name"] else childName;
        gender := if "gender" in meta then meta["gender"] else gender;
        relationship := if "relationship" in meta then meta["relationship"] else relationship;
        callId := if "call_id" in meta then Some(meta["call_id"]) else None;
    }

    /** Creates the 24 kHz mono audio source that all frames go to. */
    method SetupAudio()
      modifies this`audioSource
      ensures fresh(audioSource) && audioSource != null
      ensures audioSource.sampleRate == SampleRate && audioSource.numChannels == NumChannels
      ensures audioSource.captured == []
    {
      audioSource := new AudioSource(SampleRate, NumChannels);
    }

    /** Configures the two TTS engines. */
    method SetupTts()
      modifies this`santaTts, this`elfTts
      ensures santaTts == Some(Tts(SantaVoice)) && elfTts == Some(Tts(ElfVoice))
    {
      santaTts := Some(Tts(SantaVoice));
      elfTts := Some(Tts(ElfVoice));
    }

    /**
     * Speaks one line in `voice`, Santa's unless another is named.  `synthesized` is the PCM the selected engine
     * streams for the line; `pitchSpeed` is the pitch and speed transform applied
     * to Santa's audio.  Nothing is sent when the engine or the audio source is
     * missing, or when the engine gives no audio.
     */
    method Speak(synthesized: seq<Byte>, pitchSpeed: seq<Byte> -> seq<Byte>, voice: string := "santa")
      modifies audioSource
      ensures audioSource != null ==>
        audioSource.captured == old(audioSource.captured) +
          if SelectTts(voice, santaTts, elfTts) == None || synthesized == [] then []
          else Frames(SpokenPcm(voice, synthesized, pitchSpeed))
    {
      var tts := SelectTts(voice, santaTts, elfTts);
      if tts == None || audioSource == null {
        return;
      }
      if synthesized == [] {
        return;
      }
      StreamFrames(audioSource, SpokenPcm(voice, synthesized, pitchSpeed));
    }

    /**
     * Plays a sound file.  `decoded` is the file's audio as 24 kHz mono PCM, or
     * `None` when it cannot be decoded.  A missing file, a decoding failure or a
     * missing audio source send nothing.
     */
    method PlayAudioFile(fileExists: bool, decoded: Option<seq<Byte>>)
      modifies audioSource
      ensures audioSource != null ==>
        audioSource.captured == old(audioSource.captured) +
          if fileExists && decoded.Some? then Frames(decoded.value) else []
    {
      if !fileExists {
        return;
      }
      if decoded.None? || audioSource == null {
        return;
      }
      StreamFrames(audioSource, decoded.value);
    }
  }
}
