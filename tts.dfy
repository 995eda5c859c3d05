/** The page side of speech output: `textToSpeech` cleans a reply for speaking and
    posts one `generate` request to the worker, and `onMessageReceived` dispatches the
    worker's messages, handing streamed audio to the audio player. Strings are
    sequences of code points; the regular expressions are modelled by what they
    match. */
module Tts {
  import opened Base
  import opened Messages
  import opened Player

  /** The code points the emoji pattern matches, range by range. */
  predicate IsEmoji(c: char) {
    var x := c as int;
    || (0x1F600 <= x <= 0x1F64F)
    || (0x1F300 <= x <= 0x1F5FF)
    || (0x1F680 <= x <= 0x1F6FF)
    || (0x1F1E0 <= x <= 0x1F1FF)
    || (0x1F900 <= x <= 0x1F9FF)
    || (0x2600 <= x <= 0x26FF)
    || (0x2700 <= x <= 0x27BF)
    || x == 0x1F004
    || x == 0x1F0CF
    || (0x1F170 <= x <= 0x1F171)
    || (0x1F17E <= x <= 0x1F17F)
    || x == 0x1F18E
    || x == 0x3030
    || x == 0x2B50
    || x == 0x2B55
    || (0x2934 <= x <= 0x2935)
    || (0x2B05 <= x <= 0x2B07)
    || (0x2B1B <= x <= 0x2B1C)
    || x == 0x3297
    || x == 0x3299
    || x == 0x303D
    || x == 0x00A9
    || x == 0x00AE
    || x == 0x2122
    || x == 0x23F3
    || x == 0x24C2
    || (0x23E9 <= x <= 0x23EF)
    || x == 0x25B6
    || (0x23F8 <= x <= 0x23FA)
  }

  predicate IsStar(c: char) {
    c == '*'
  }

  /** Deleting every code point `drop` selects, keeping the others in order: what a
      global replace by "" of a one-character pattern does. */
  function Strip(s: string, drop: char -> bool): (r: string)
    ensures |r| <= |s|
    ensures forall c :: c in r <==> c in s && !drop(c)
    decreases |s|
  {
    if s == [] then []
    else (if drop(s[0]) then [] else [s[0]]) + Strip(s[1..], drop)
  }

  /** Stripping works piece by piece, so the kept code points stay in their order. */
  lemma {:induction false} StripAppend(a: string, b: string, drop: char -> bool)
    ensures Strip(a + b, drop) == Strip(a, drop) + Strip(b, drop)
    decreases |a|
  {
    if a == [] {
      assert a + b == b;
    } else {
      assert (a + b)[0] == a[0];
      assert (a + b)[1..] == a[1..] + b;
      StripAppend(a[1..], b, drop);
    }
  }

  /** A text with nothing to drop comes back unchanged. */
  lemma {:induction false} StripNothing(s: string, drop: char -> bool)
    requires forall c :: c in s ==> !drop(c)
    ensures Strip(s, drop) == s
    decreases |s|
  {
    if s != [] {
      assert s[0] in s;
      assert forall c :: c in s[1..] ==> c in s;
      StripNothing(s[1..], drop);
    }
  }

  /** `text.replaceAll("*", "")`. */
  function RemoveStars(text: string): (r: string)
    ensures forall c :: c in r <==> c in text && c != '*'
    ensures '*' !in text ==> r == text
  {
    var r := Strip(text, IsStar);
    assert '*' !in text ==> r == text by {
      if '*' !in text {
        StripNothing(text, IsStar);
      }
    }
    r
  }

  /** `removeEmojis(text)`. */
  function RemoveEmojis(text: string): string {
    Strip(text, IsEmoji)
  }

  /** removeEmojis deletes exactly the emoji code points and keeps every other code
      point, in order: around any one code point the text is cleaned in pieces. */
  lemma RemoveEmojisExactly(a: string, c: char, b: string)
    ensures RemoveEmojis(a + [c] + b) ==
      RemoveEmojis(a) + (if IsEmoji(c) then [] else [c]) + RemoveEmojis(b)
    ensures forall x :: x in RemoveEmojis(a + [c] + b) <==> x in a + [c] + b && !IsEmoji(x)
  {
    var kept: string := if IsEmoji(c) then [] else [c];
    assert Strip([c], IsEmoji) == kept by {
      assert [c][1..] == [];
    }
    StripAppend(a, [c], IsEmoji);
    StripAppend(a + [c], b, IsEmoji);
  }

  /** The code points `.` does not match. */
  predicate IsLineTerminator(c: char) {
    c == '\n' || c == '\r' || c == '\U{2028}' || c == '\U{2029}'
  }

  /** The marker `m` occurs in `s` at position `k`. */
  predicate MarkerAt(s: string, m: string, k: nat) {
    k + |m| <= |s| && s[k..k + |m|] == m
  }

  /** Where the lazy `(.*?)` group that starts at `j` ends: the first later position
      holding the closing marker, provided no line terminator comes before it. */
  function FindClose(s: string, m: string, j: nat): (r: Option<nat>)
    requires |m| > 0 && j <= |s|
    ensures r.Some? ==>
      && j <= r.value && MarkerAt(s, m, r.value)
      && forall k :: j <= k < r.value ==> !MarkerAt(s, m, k) && !IsLineTerminator(s[k])
    ensures r.None? ==>
      forall k :: j <= k && MarkerAt(s, m, k) ==> exists i :: j <= i < k && IsLineTerminator(s[i])
    decreases |s| - j
  {
    if j + |m| > |s| then None
    else if MarkerAt(s, m, j) then Some(j)
    else if IsLineTerminator(s[j]) then None
    else FindClose(s, m, j + 1)
  }

  /** `s.replace(/M(.*?)M/g, '$1')` for the marker `M`: scanning left to right, an
      opening marker with a closing one later on the same line is replaced by the text
      between them, and the scan resumes after the closing marker; any other code
      point is kept. */
  function ReplacePairs(s: string, m: string): (r: string)
    requires |m| > 0
    ensures |r| <= |s|
    ensures forall c :: c in r ==> c in s
    decreases |s|
  {
    if |s| == 0 then []
    else if MarkerAt(s, m, 0) && FindClose(s, m, |m|).Some? then
      var j := FindClose(s, m, |m|).value;
      assert forall c :: c in s[|m|..j] ==> c in s;
      assert forall c :: c in s[j + |m|..] ==> c in s;
      s[|m|..j] + ReplacePairs(s[j + |m|..], m)
    else
      assert forall c :: c in s[1..] ==> c in s;
      [s[0]] + ReplacePairs(s[1..], m)
  }

  /** With no marker character in the text, a rewrite changes nothing. */
  lemma {:induction false} ReplacePairsIdentity(s: string, m: string)
    requires |m| > 0 && m[0] !in s
    ensures ReplacePairs(s, m) == s
    decreases |s|
  {
    if |s| > 0 {
      assert !MarkerAt(s, m, 0) by {
        assert s[0] != m[0];
      }
      assert forall c :: c in s[1..] ==> c in s;
      ReplacePairsIdentity(s[1..], m);
    }
  }

  /** A pair of markers around a one-line text free of the marker character is
      replaced by that text, and the rewrite goes on after the closing marker. */
  lemma ReplacePairsMatched(inner: string, rest: string, m: string)
    requires |m| > 0 && m[0] !in inner
    requires forall i :: 0 <= i < |inner| ==> !IsLineTerminator(inner[i])
    ensures ReplacePairs(m + inner + m + rest, m) == inner + ReplacePairs(rest, m)
  {
    var s := m + inner + m + rest;
    var close := |m| + |inner|;
    assert s[..|m|] == m;
    assert MarkerAt(s, m, 0);
    assert s[close..close + |m|] == m;
    assert MarkerAt(s, m, close);
    forall k | |m| <= k < close
      ensures !MarkerAt(s, m, k) && !IsLineTerminator(s[k])
    {
      assert s[k] == inner[k - |m|];
    }
    var r := FindClose(s, m, |m|);
    assert r == Some(close);
    assert s[|m|..close] == inner;
    assert s[close + |m|..] == rest;
  }

  /** A pair of markers whose text runs over a line break is not rewritten: the
      opening marker's first character stays. */
  lemma ReplacePairsNotAcrossLines(inner: string, rest: string, m: string, t: nat)
    requires |m| > 0 && m[0] !in inner
    requires t < |inner| && IsLineTerminator(inner[t])
    ensures ReplacePairs(m + inner + m + rest, m) ==
      [m[0]] + ReplacePairs((m + inner + m + rest)[1..], m)
  {
    var s := m + inner + m + rest;
    var close := |m| + |inner|;
    assert s[|m| + t] == inner[t];
    forall k | |m| <= k < close
      ensures !MarkerAt(s, m, k)
    {
      assert s[k] == inner[k - |m|];
    }
    if MarkerAt(s, m, 0) {
      assert FindClose(s, m, |m|).None?;
    }
    assert s[0] == m[0];
  }

  /** The cleaning chain of textToSpeech: asterisks, then emoji, then the bold,
      italic, code and strikethrough markers. */
  function CleanText(text: string): (r: string)
    ensures |r| <= |text|
    ensures forall c :: c in r ==> c in text && !IsEmoji(c) && c != '*'
  {
    var t0 := RemoveStars(text);
    var t1 := RemoveEmojis(t0);
    var t2 := ReplacePairs(t1, "**");
    var t3 := ReplacePairs(t2, "*");
    var t4 := ReplacePairs(t3, "`");
    ReplacePairs(t4, "~~")
  }

  /** Once the asterisks are gone the bold and italic rewrites have nothing to match,
      so only the code and strikethrough rewrites act on the emoji-free text. */
  lemma CleanTextSkipsEmphasis(text: string)
    ensures CleanText(text) ==
      ReplacePairs(ReplacePairs(RemoveEmojis(RemoveStars(text)), "`"), "~~")
  {
    var t1 := RemoveEmojis(RemoveStars(text));
    assert '*' !in t1;
    ReplacePairsIdentity(t1, "**");
    ReplacePairsIdentity(t1, "*");
  }

  /** A required argument is missing when it is undefined, null or empty. */
  predicate Missing(arg: Option<string>)
    ensures !Missing(arg) ==> arg.Some? && |arg.value| > 0
  {
    arg.None? || arg.value == ""
  }

  /** The module state of tts.js: the messages posted to the worker, whether the
      readiness promise has resolved, and the page's audio player. */
  class Speaker {
    var posted: seq<GenerateMessage>
    var modelReady: bool
    const audioPlayer: AudioPlayer

    constructor (initial: ContextState)
      requires initial != Closed
      ensures posted == [] && !modelReady
      ensures fresh(audioPlayer) && audioPlayer.Valid()
      ensures audioPlayer.audioQueue == [] && !audioPlayer.isPlaying && audioPlayer.loops == []
    {
      posted := [];
      modelReady := false;
      audioPlayer := new AudioPlayer(initial);
    }

    /** textToSpeech: without text or voice nothing is posted and undefined is
        returned; otherwise the text is cleaned step by step, exactly one `generate`
        request carrying it is posted, and the cleaned text is returned. */
    method TextToSpeech(text: Option<string>, voice: Option<string>) returns (r: Option<string>)
      modifies this
      ensures Missing(text) || Missing(voice) ==> r == None && posted == old(posted)
      ensures !Missing(text) && !Missing(voice) ==>
        && r == Some(CleanText(text.value))
        && posted == old(posted) + [GenerateMessage(r.value, voice.value)]
      ensures modelReady == old(modelReady) && unchanged(audioPlayer)
    {
      if Missing(text) || Missing(voice) {
        return None;
      }
      var t := text.value;
      t := RemoveStars(t);
      t := RemoveEmojis(t);
      t := ReplacePairs(t, "**");
      t := ReplacePairs(t, "*");
      t := ReplacePairs(t, "`");
      t := ReplacePairs(t, "~~");
      posted := posted + [GenerateMessage(t, voice.value)];
      r := Some(t);
    }

    /** onMessageReceived: `ready` resolves the readiness promise and `stream` queues
        its audio; `device`, `progress`, `complete` and `error` change nothing. An
        empty `stream` chunk makes queueAudio throw, and the player stays as it was. */
    method OnMessageReceived(msg: WorkerMessage)
      requires audioPlayer.Valid()
      modifies this, audioPlayer
      ensures audioPlayer.Valid()
      ensures posted == old(posted)
      ensures modelReady == (old(modelReady) || msg.Ready?)
      ensures !msg.Stream? ==> unchanged(audioPlayer)
      ensures msg.Stream? && |msg.audio| == 0 ==> unchanged(audioPlayer)
      ensures msg.Stream? && |msg.audio| > 0 ==>
        var queued := old(audioPlayer.audioQueue) + [MonoBuffer(msg.audio)];
        if old(audioPlayer.isPlaying) then
          && audioPlayer.audioQueue == queued
          && audioPlayer.isPlaying && audioPlayer.currentSource == old(audioPlayer.currentSource)
          && audioPlayer.loops == old(audioPlayer.loops) && audioPlayer.started == old(audioPlayer.started)
          && audioPlayer.sourcesCreated == old(audioPlayer.sourcesCreated)
        else
          var source := Source(old(audioPlayer.sourcesCreated), queued[0]);
          var suspended := audioPlayer.contextState == Suspended;
          && audioPlayer.isPlaying && audioPlayer.currentSource == Some(source)
          && audioPlayer.audioQueue == queued[1..]
          && audioPlayer.loops == old(audioPlayer.loops) +
               [if suspended then AwaitingResume(source) else AwaitingEnd(source)]
          && audioPlayer.started == old(audioPlayer.started) + (if suspended then [] else [source])
          && audioPlayer.sourcesCreated == old(audioPlayer.sourcesCreated) + 1
      ensures audioPlayer.contextState == old(audioPlayer.contextState)
      ensures audioPlayer.stopped == old(audioPlayer.stopped)
      ensures audioPlayer.closeCalls == old(audioPlayer.closeCalls)
    {
      match msg {
        case Ready(_, _) =>
          modelReady := true;
        case Stream(audio, _) =>
          audioPlayer.QueueAudio(audio);
        case _ =>
      }
    }
  }
}
