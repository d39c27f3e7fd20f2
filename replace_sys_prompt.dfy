/** The maintenance script bot/replace_sys_prompt.py: in every logs/user_* directory that holds a
    conversation_history.json, the content of the first system message is replaced by the stripped
    persona prompt. A JSON message is a dictionary of string fields; the logs directory is a map
    from entry name to entry. */
module PromptRewrite {
  import opened Wrappers
  import opened Text

  type Msg = map<string, string>

  const HISTORY_FILE := "conversation_history.json"

  predicate IsSystem(m: Msg) {
    Get(m, "role") == Some("system")
  }

  /** The index of the first system message. */
  function FirstSystem(conv: seq<Msg>): (r: Option<nat>)
    ensures r.Some? ==> r.value < |conv| && IsSystem(conv[r.value])
    ensures forall k :: 0 <= k < |conv| && (r.None? || k < r.value) ==> !IsSystem(conv[k])
  {
    if conv == [] then None
    else if IsSystem(conv[0]) then Some(0)
    else match FirstSystem(conv[1..])
      case Some(i) => Some(i + 1)
      case None => None
  }

  /** The conversation after the rewrite loop of update_system_prompt_in_logs. */
  function Rewritten(conv: seq<Msg>, prompt: string): seq<Msg> {
    match FirstSystem(conv)
    case Some(i) => conv[i := conv[i]["content" := prompt]]
    case None => conv
  }

  /** Only the first system message changes, and in it only the content; the length, the order and
      every other message, later system messages included, are kept. */
  lemma RewrittenSpec(conv: seq<Msg>, prompt: string)
    ensures |Rewritten(conv, prompt)| == |conv|
    ensures forall k :: 0 <= k < |conv| && Some(k) != FirstSystem(conv) ==> Rewritten(conv, prompt)[k] == conv[k]
    ensures FirstSystem(conv).None? ==> Rewritten(conv, prompt) == conv
    ensures match FirstSystem(conv)
      case Some(i) =>
        && Rewritten(conv, prompt)[i]["content"] == prompt
        && Rewritten(conv, prompt)[i] - {"content"} == conv[i] - {"content"}
      case None => true
  {
  }

  /** Rewriting twice with the same prompt is rewriting once. */
  lemma {:induction false} RewrittenIdempotent(conv: seq<Msg>, prompt: string)
    ensures Rewritten(Rewritten(conv, prompt), prompt) == Rewritten(conv, prompt)
  {
    FirstSystemStable(conv, prompt);
    match FirstSystem(conv) {
      case None =>
      case Some(i) =>
        var m := conv[i]["content" := prompt];
        assert m["content" := prompt] == m;
    }
  }

  /** Changing a message's content leaves the first system index where it was. */
  lemma {:induction false} FirstSystemStable(conv: seq<Msg>, prompt: string)
    ensures FirstSystem(Rewritten(conv, prompt)) == FirstSystem(conv)
  {
    var r := Rewritten(conv, prompt);
    match FirstSystem(conv) {
      case None =>
      case Some(i) =>
        assert IsSystem(r[i]);
        forall k | 0 <= k < i ensures !IsSystem(r[k]) {
          assert r[k] == conv[k];
        }
        FirstSystemIs(r, i);
    }
  }

  /** A system message with no system message before it is the first one. */
  lemma {:induction false} FirstSystemIs(conv: seq<Msg>, i: nat)
    requires i < |conv| && IsSystem(conv[i])
    requires forall k :: 0 <= k < i ==> !IsSystem(conv[k])
    ensures FirstSystem(conv) == Some(i)
  {
    if i > 0 {
      assert !IsSystem(conv[0]);
      forall k | 0 <= k < i - 1 ensures !IsSystem(conv[1..][k]) {
        assert conv[1..][k] == conv[k + 1];
      }
      FirstSystemIs(conv[1..], i - 1);
    }
  }

  /** The loop over the messages: set the content of the first system message and stop. */
  method RewriteFirstSystem(conversation: array<Msg>, prompt: string) returns (updated: bool)
    modifies conversation
    ensures conversation[..] == Rewritten(old(conversation[..]), prompt)
    ensures updated <==> FirstSystem(old(conversation[..])).Some?
  {
    ghost var original := conversation[..];
    updated := false;
    var i := 0;
    while i < conversation.Length
      invariant 0 <= i <= conversation.Length
      invariant conversation[..] == original
      invariant forall k :: 0 <= k < i ==> !IsSystem(original[k])
    {
      if Get(conversation[i], "role") == Some("system") {
        FirstSystemIs(original, i);
        conversation[i] := conversation[i]["content" := prompt];
        updated := true;
        break;
      }
      i := i + 1;
    }
  }

  /** What json.load gives: a list of messages, some other JSON value, or a read or decode error. */
  datatype Content = Conversation(messages: seq<Msg>) | OtherJson | Unreadable

  /** An entry of the logs directory. */
  datatype Entry = Directory(files: map<string, Content>) | PlainFile

  /** The entries the script looks at: directories named user_* holding the history file. */
  predicate Eligible(name: string, entry: Entry) {
    entry.Directory? && StartsWith(name, "user_") && HISTORY_FILE in entry.files
  }

  /** The entry's history file is rewritten and written back: a readable, non-empty list with a
      system message. */
  predicate Rewrites(name: string, entry: Entry) {
    && Eligible(name, entry)
    && entry.files[HISTORY_FILE].Conversation?
    && entry.files[HISTORY_FILE].messages != []
    && FirstSystem(entry.files[HISTORY_FILE].messages).Some?
  }

  function RewriteEntry(name: string, entry: Entry, prompt: string): Entry {
    if Rewrites(name, entry) then
      Directory(entry.files[HISTORY_FILE := Conversation(Rewritten(entry.files[HISTORY_FILE].messages, Strip(prompt)))])
    else entry
  }

  /** The logs directory after update_system_prompt_in_logs. */
  function UpdatedLogs(logs: map<string, Entry>, prompt: string): map<string, Entry> {
    map name | name in logs :: RewriteEntry(name, logs[name], prompt)
  }

  /** Entries that are not user_* directories with a history file, unreadable or non-list or empty
      files, and conversations without a system message are left as they were; in a rewritten entry
      only the history file changes. */
  lemma UpdatedLogsSpec(logs: map<string, Entry>, prompt: string)
    ensures UpdatedLogs(logs, prompt).Keys == logs.Keys
    ensures forall name :: name in logs && !Rewrites(name, logs[name]) ==> UpdatedLogs(logs, prompt)[name] == logs[name]
    ensures forall name :: name in logs && !Eligible(name, logs[name]) ==> UpdatedLogs(logs, prompt)[name] == logs[name]
    ensures forall name :: name in logs && Rewrites(name, logs[name]) ==>
      && UpdatedLogs(logs, prompt)[name].Directory?
      && UpdatedLogs(logs, prompt)[name].files - {HISTORY_FILE} == logs[name].files - {HISTORY_FILE}
      && UpdatedLogs(logs, prompt)[name].files[HISTORY_FILE]
         == Conversation(Rewritten(logs[name].files[HISTORY_FILE].messages, Strip(prompt)))
  {
  }

  /** Running the script twice leaves the logs as one run does. */
  lemma UpdatedLogsIdempotent(logs: map<string, Entry>, prompt: string)
    ensures UpdatedLogs(UpdatedLogs(logs, prompt), prompt) == UpdatedLogs(logs, prompt)
  {
    var once := UpdatedLogs(logs, prompt);
    forall name | name in logs ensures RewriteEntry(name, once[name], prompt) == once[name] {
      var entry := logs[name];
      if Rewrites(name, entry) {
        var conv := entry.files[HISTORY_FILE].messages;
        RewrittenIdempotent(conv, Strip(prompt));
        FirstSystemStable(conv, Strip(prompt));
        RewrittenSpec(conv, Strip(prompt));
        assert once[name].files[HISTORY_FILE := Conversation(Rewritten(Rewritten(conv, Strip(prompt)), Strip(prompt)))]
               == once[name].files;
      }
    }
  }

  /** One entry of the logs directory: read the history of an eligible directory, skip what is not
      a non-empty list, run the rewrite loop and keep the result when a system message was found. */
  method RewriteLogEntry(name: string, entry: Entry, prompt: string) returns (result: Entry, written: bool)
    ensures result == RewriteEntry(name, entry, prompt)
    ensures written == Rewrites(name, entry)
  {
    result, written := entry, false;
    if entry.Directory? && StartsWith(name, "user_") && HISTORY_FILE in entry.files {
      match entry.files[HISTORY_FILE] {
        case Conversation(messages) =>
          if messages != [] {
            var conversation := new Msg[|messages|](k requires 0 <= k < |messages| => messages[k]);
            assert conversation[..] == messages;
            var updated := RewriteFirstSystem(conversation, Strip(prompt));
            if updated {
              result := Directory(entry.files[HISTORY_FILE := Conversation(conversation[..])]);
              written := true;
            }
          }
        case OtherJson =>
        case Unreadable =>
      }
    }
  }

  /** update_system_prompt_in_logs: visit every entry of the logs directory and write back the
      histories that changed. */
  method UpdateSystemPromptInLogs(logs: map<string, Entry>, prompt: string)
    returns (result: map<string, Entry>, written: set<string>)
    ensures result == UpdatedLogs(logs, prompt)
    ensures written == set name | name in logs && Rewrites(name, logs[name])
  {
    result := logs;
    written := {};
    var todo := logs.Keys;
    while todo != {}
      invariant todo <= logs.Keys
      invariant result.Keys == logs.Keys
      invariant forall name :: name in logs && name !in todo ==> result[name] == RewriteEntry(name, logs[name], prompt)
      invariant forall name :: name in todo ==> result[name] == logs[name]
      invariant written == set name | name in logs && name !in todo && Rewrites(name, logs[name])
      decreases todo
    {
      var name :| name in todo;
      var entry, changed := RewriteLogEntry(name, logs[name], prompt);
      result := result[name := entry];
      if changed {
        written := written + {name};
      }
      todo := todo - {name};
    }
    assert forall name :: name in logs ==> result[name] == UpdatedLogs(logs, prompt)[name];
  }
}
