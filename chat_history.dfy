/** The transcript store of one conversation (chat_history.py): an ordered list of
    `(role, text)` turns, the persona role the prompt chain is built from, and the
    profile name the saved transcript is filed under. */
module Transcript {
  import opened Text

  const UserRole := "user"
  const AssistantRole := "assistant"

  /** One `(role, text)` tuple of the history list. */
  datatype Turn = Turn(role: string, text: string)

  /** The `f"{role}: {msg}"` rendering of one turn. */
  function Render(t: Turn): string
  {
    t.role + ": " + t.text
  }

  function RenderAll(entries: seq<Turn>): (lines: seq<string>)
    ensures |lines| == |entries|
  {
    seq(|entries|, i requires 0 <= i < |entries| => Render(entries[i]))
  }

  /** `"\n".join(lines)`. */
  function JoinLines(lines: seq<string>): string
  {
    if |lines| == 0 then ""
    else if |lines| == 1 then lines[0]
    else lines[0] + "\n" + JoinLines(lines[1..])
  }

  /** What `get_transcription` returns: the rendered turns joined by newlines, plus
      one final newline. */
  function Transcription(entries: seq<Turn>): (r: string)
    ensures entries == [] ==> r == "\n"
    ensures |r| > 0 && r[|r| - 1] == '\n'
  {
    JoinLines(RenderAll(entries)) + "\n"
  }

  /** What `save_chat` writes to the transcript file: one `"role: text\n"` line per turn. */
  function SavedText(entries: seq<Turn>): string
  {
    if entries == [] then "" else Render(entries[0]) + "\n" + SavedText(entries[1..])
  }

  /** For a non-empty history the saved file holds exactly the transcription; for an
      empty one the file is empty while the transcription is a lone newline. */
  lemma {:induction false} SavedTextIsTranscription(entries: seq<Turn>)
    ensures entries != [] ==> SavedText(entries) == Transcription(entries)
    ensures entries == [] ==> SavedText(entries) == "" && Transcription(entries) == "\n"
  {
    if |entries| > 1 {
      SavedTextIsTranscription(entries[1..]);
      assert RenderAll(entries)[1..] == RenderAll(entries[1..]);
    }
  }

  /** Saving is line by line: appending a turn appends exactly its line. */
  lemma {:induction false} SavedTextAppend(entries: seq<Turn>, t: Turn)
    ensures SavedText(entries + [t]) == SavedText(entries) + Render(t) + "\n"
  {
    if entries != [] {
      assert (entries + [t])[1..] == entries[1..] + [t];
      SavedTextAppend(entries[1..], t);
    }
  }

  /** Appending a turn to a non-empty history extends its transcription by that turn's
      line, so the transcription lists the turns in the order they were appended. */
  lemma TranscriptionAppend(entries: seq<Turn>, t: Turn)
    requires entries != []
    ensures Transcription(entries + [t]) == Transcription(entries) + Render(t) + "\n"
  {
    SavedTextIsTranscription(entries);
    SavedTextIsTranscription(entries + [t]);
    SavedTextAppend(entries, t);
  }

  /** The `chatHistory` object. */
  class ChatHistory {
    var entries: seq<Turn>
    var role: Option<string>
    var name: string
    const directory: string

    constructor (name: string)
      ensures entries == [] && role == None && this.name == name
      ensures directory == "chat_history"
    {
      entries := [];
      role := None;
      this.name := name;
      directory := "chat_history";
    }

    method SetProfileNameForTranscript(profileName: string)
      modifies this
      ensures name == profileName
      ensures entries == old(entries) && role == old(role)
    {
      name := profileName;
    }

    /** Saves the transcript when asked to (the text written is returned; the file
        system itself is not modelled), then empties the history and drops the role.
        The name is kept. */
    method Flush(saveAttack: bool) returns (saved: Option<string>)
      modifies this
      ensures saved == if saveAttack then Some(SavedText(old(entries))) else None
      ensures entries == [] && role == None
      ensures name == old(name)
    {
      saved := None;
      if saveAttack {
        var text := SaveChat();
        saved := Some(text);
      }
      entries := [];
      role := None;
    }

    /** The body of the file `save_chat` writes. */
    method SaveChat() returns (text: string)
      ensures text == SavedText(entries)
      ensures entries != [] ==> text == Transcription(entries)
    {
      text := "";
      var i := 0;
      while i < |entries|
        invariant 0 <= i <= |entries|
        invariant text == SavedText(entries[..i])
      {
        SavedTextAppend(entries[..i], entries[i]);
        assert entries[..i + 1] == entries[..i] + [entries[i]];
        text := text + Render(entries[i]) + "\n";
        i := i + 1;
      }
      assert entries[..i] == entries;
      SavedTextIsTranscription(entries);
    }

    method InitializeRole(r: Option<string>)
      modifies this
      ensures role == r
      ensures entries == old(entries) && name == old(name)
    {
      role := r;
    }

    method AddHumanMessage(msg: string)
      modifies this
      ensures entries == old(entries) + [Turn(UserRole, msg)]
      ensures role == old(role) && name == old(name)
    {
      entries := entries + [Turn(UserRole, msg)];
    }

    method AddAiResponse(res: string)
      modifies this
      ensures entries == old(entries) + [Turn(AssistantRole, res)]
      ensures role == old(role) && name == old(name)
    {
      entries := entries + [Turn(AssistantRole, res)];
    }

    /** `chat_history[-1]`: the most recent turn, or an IndexError on an empty history. */
    method GetWindow() returns (r: Outcome<Turn>)
      ensures entries == [] <==> r == Raised(IndexError)
      ensures entries != [] ==> r == Ok(entries[|entries| - 1])
    {
      if |entries| == 0 {
        r := Raised(IndexError);
      } else {
        r := Ok(entries[|entries| - 1]);
      }
    }

    method GetChatHistory() returns (r: seq<Turn>)
      ensures r == entries
    {
      r := entries;
    }

    method GetPrompt() returns (r: Option<string>)
      ensures r == role
    {
      r := role;
    }

    method GetTranscription() returns (r: string)
      ensures r == Transcription(entries)
      ensures entries == [] ==> r == "\n"
    {
      r := Transcription(entries);
    }
  }
}
