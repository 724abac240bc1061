/** The preload bridge's error normaliser `handleError` and the routing of the
    `ollama` bridge methods (apps/desktop/electron/preload/index.ts). */
module Preload {
  import opened Wrappers
  import opened Text

  const RemotePrefix := "Error invoking remote method '"
  const RemoteSuffix := "': "
  const ErrorWord := "error: "

  /** `message.replace(/^Error invoking remote method '[^']+': /, '')`: the
      method name runs to the first quote, must be non-empty and must be
      followed by `': `. */
  function StripRemotePrefix(message: string): (r: string)
    ensures !StartsWith(message, RemotePrefix) ==> r == message
    ensures r == message || (|r| < |message| && r == message[|message| - |r|..])
  {
    if !StartsWith(message, RemotePrefix) then message
    else
      var rest := message[|RemotePrefix|..];
      match IndexOf(rest, '\'')
      case None => message
      case Some(k) =>
        if k >= 1 && StartsWith(rest[k..], RemoteSuffix) then
          assert message[|message| - |rest[k + 3..]|..] == rest[k + 3..];
          rest[k + 3..]
        else message
  }

  /** The prefix is removed exactly when it is present, and only once: the
      text after it, even if it starts with another such prefix, is kept. */
  lemma {:induction false} StripsRemotePrefix(name: string, rest: string)
    requires |name| >= 1 && '\'' !in name
    ensures StripRemotePrefix(RemotePrefix + name + RemoteSuffix + rest) == rest
  {
    var message := RemotePrefix + name + RemoteSuffix + rest;
    assert message[..|RemotePrefix|] == RemotePrefix;
    var after := message[|RemotePrefix|..];
    assert after == name + RemoteSuffix + rest;
    IndexAfter(name, RemoteSuffix + rest, '\'');
    assert after[|name|..] == RemoteSuffix + rest;
    assert (RemoteSuffix + rest)[..|RemoteSuffix|] == RemoteSuffix;
    assert after[|name| + 3..] == rest;
  }

  /** A wrapper the pattern does not match is left alone: a name with no
      closing quote, an empty name, or a closing quote not followed by `: `. */
  lemma {:induction false} MalformedWrapperKept(name: string, tail: string)
    requires '\'' !in name
    ensures StripRemotePrefix(RemotePrefix + name) == RemotePrefix + name
    ensures name == [] || !StartsWith(tail, ": ") ==>
              StripRemotePrefix(RemotePrefix + name + "'" + tail) == RemotePrefix + name + "'" + tail
  {
    var open := RemotePrefix + name;
    assert open[..|RemotePrefix|] == RemotePrefix && open[|RemotePrefix|..] == name;
    var message := RemotePrefix + name + "'" + tail;
    assert message[..|RemotePrefix|] == RemotePrefix;
    var rest := message[|RemotePrefix|..];
    assert rest == name + ("'" + tail);
    IndexAfter(name, "'" + tail, '\'');
    assert rest[|name|..] == "'" + tail;
    if |name| >= 1 && StartsWith("'" + tail, RemoteSuffix) {
      assert ("'" + tail)[1..3] == tail[..2];
      assert tail[..2] == RemoteSuffix[1..];
    }
  }

  /** `message.toLowerCase().startsWith('error: ') ? message.slice(7) : message` */
  function StripErrorWord(message: string): (r: string)
    ensures StartsWith(Lower(message), ErrorWord) ==> r == message[7..]
    ensures !StartsWith(Lower(message), ErrorWord) ==> r == message
  {
    if StartsWith(Lower(message), ErrorWord) then message[7..] else message
  }

  /** The word is matched case-insensitively and exactly seven characters go. */
  lemma StripsErrorWord(word: string, rest: string)
    requires |word| == 7 && Lower(word) == ErrorWord
    ensures StripErrorWord(word + rest) == rest
  {
    var m := word + rest;
    assert Lower(m)[..7] == Lower(word) by {
      forall i | 0 <= i < 7 ensures Lower(m)[i] == Lower(word)[i] { assert m[i] == word[i]; }
    }
    assert m[7..] == rest;
  }

  /** `s.charAt(0).toUpperCase() + s.slice(1)` */
  function Capitalize(s: string): (r: string)
    ensures |r| == |s|
    ensures s != [] ==> r[0] == UpperChar(s[0]) && r[1..] == s[1..]
  {
    if s == [] then [] else [UpperChar(s[0])] + s[1..]
  }

  /** The message `handleError` rethrows (preload/index.ts:63-66). */
  function Normalize(message: string): (r: string)
    ensures |r| <= |message|
  {
    Capitalize(StripErrorWord(StripRemotePrefix(message)))
  }

  /** A message carrying neither prefix keeps every character but its first,
      which is upper-cased; an empty message stays empty. */
  lemma PlainMessageOnlyCapitalized(message: string)
    requires !StartsWith(message, RemotePrefix)
    requires !StartsWith(Lower(message), ErrorWord)
    ensures |Normalize(message)| == |message|
    ensures message != [] ==> Normalize(message)[0] == UpperChar(message[0]) && Normalize(message)[1..] == message[1..]
  {
  }

  /** The wrapper of a remote failure goes, then the `Error: ` word, and the
      first remaining letter is capitalised. */
  lemma {:induction false} RemoteErrorNormalized(name: string, word: string, c: char, rest: string)
    requires |name| >= 1 && '\'' !in name
    requires |word| == 7 && Lower(word) == ErrorWord
    ensures Normalize(RemotePrefix + name + RemoteSuffix + (word + [c] + rest)) == [UpperChar(c)] + rest
  {
    StripsRemotePrefix(name, word + [c] + rest);
    assert word + [c] + rest == word + ([c] + rest);
    StripsErrorWord(word, [c] + rest);
  }

  /** Electron wraps the `Error` thrown by a main-process handler as
      `Error invoking remote method '<channel>': Error: <message>`; the
      renderer gets `<message>` back exactly when it does not start with a
      lower-case letter, as with every message of the Ollama manager. */
  lemma {:induction false} MainProcessMessageRestored(channel: string, message: string)
    requires |channel| >= 1 && '\'' !in channel
    requires message != [] && !('a' <= message[0] <= 'z')
    ensures Normalize(RemotePrefix + channel + RemoteSuffix + ("Error: " + message)) == message
  {
    var word := "Error: ";
    assert Lower(word) == ErrorWord by {
      assert Lower(word)[0] == LowerChar('E') == 'e';
    }
    assert word + message == word + [message[0]] + message[1..];
    RemoteErrorNormalized(channel, word, message[0], message[1..]);
    assert [UpperChar(message[0])] + message[1..] == message;
  }

  /** What a thrown value is: an `Error` instance (of class `name`) or any
      other value. */
  datatype Thrown<V> = ErrorInstance(name: string, message: string) | OtherValue(value: V)

  /** How a promise settled. */
  datatype Settled<T, V> = Resolved(result: T) | Rejected(thrown: Thrown<V>)

  /** `handleError` (preload/index.ts:50-70): a result passes through
      unchanged; an `Error` is rethrown as a `TypeError` with the normalised
      message; anything else is rethrown as it is. */
  function HandleError<T, V>(call: Settled<T, V>): (r: Settled<T, V>)
    ensures call.Resolved? ==> r == call
    ensures call.Rejected? && call.thrown.OtherValue? ==> r == call
    ensures call.Rejected? && call.thrown.ErrorInstance? ==>
      r == Rejected(ErrorInstance("TypeError", Normalize(call.thrown.message)))
  {
    match call
    case Resolved(_) => call
    case Rejected(OtherValue(_)) => call
    case Rejected(ErrorInstance(_, message)) => Rejected(ErrorInstance("TypeError", Normalize(message)))
  }

  /** The methods of the `ollama` bridge object. */
  datatype OllamaCall =
    | Status | Start | Stop | EnsureRunning | ListModels
    | PullModel(modelName: string) | DeleteModel(modelName: string) | AutoInstall

  function MethodName(call: OllamaCall): string
  {
    match call
    case Status => "status"
    case Start => "start"
    case Stop => "stop"
    case EnsureRunning => "ensureRunning"
    case ListModels => "listModels"
    case PullModel(_) => "pullModel"
    case DeleteModel(_) => "deleteModel"
    case AutoInstall => "autoInstall"
  }

  /** An `ipcRenderer.invoke(channel, args?)` call. */
  datatype Invocation = Invocation(channel: string, args: Option<string>)

  /** What each bridge method invokes (preload/index.ts:107-116): channel
      `ollama.<method>`, with `{ modelName }` forwarded only by `pullModel` and
      `deleteModel`. */
  function Route(call: OllamaCall): (r: Invocation)
    ensures StartsWith(r.channel, "ollama.") && r.channel[7..] == MethodName(call)
    ensures r.args.Some? <==> call.PullModel? || call.DeleteModel?
  {
    var channel := "ollama." + MethodName(call);
    assert channel[..7] == "ollama.";
    match call
    case PullModel(name) => Invocation(channel, Some(name))
    case DeleteModel(name) => Invocation(channel, Some(name))
    case _ => Invocation(channel, None)
  }

  /** Two bridge methods share a channel only when they are the same method. */
  lemma RoutesAreDistinct(a: OllamaCall, b: OllamaCall)
    requires Route(a).channel == Route(b).channel
    ensures MethodName(a) == MethodName(b)
    ensures a.PullModel? ==> b.PullModel?
    ensures a.DeleteModel? ==> b.DeleteModel?
  {
    assert Route(a).channel[7..] == Route(b).channel[7..];
  }
}
