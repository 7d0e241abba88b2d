/**
 * PermissionGranter: on a rooted device, grant the app CAPTURE_AUDIO_OUTPUT by running
 * "pm grant <package> android.permission.CAPTURE_AUDIO_OUTPUT" as root. The package name
 * is first checked against a dotted-identifier grammar, so that nothing but the name
 * can reach the shell command.
 *
 * The permission check, the root probe and the root command are inputs; the calls
 * made are recorded in order.
 */
module Granter {
  import opened Wrappers
  import JavaText

  const PERMISSION_CAPTURE_AUDIO_OUTPUT: string := "android.permission.CAPTURE_AUDIO_OUTPUT"

  predicate IsAsciiLetter(c: char) { 'a' <= c <= 'z' || 'A' <= c <= 'Z' }

  predicate IsIdentPart(c: char) { IsAsciiLetter(c) || '0' <= c <= '9' || c == '_' }

  predicate AllIdentPart(s: string) { forall i | 0 <= i < |s| :: IsIdentPart(s[i]) }

  /** One segment of a package name: a letter followed by letters, digits or underscores. */
  predicate IsSegment(s: string) {
    |s| > 0 && IsAsciiLetter(s[0]) && AllIdentPart(s[1..])
  }

  /** The grammar stated on segments: every piece between dots is a segment. */
  predicate IsPackageName(name: string) {
    var segments := JavaText.SplitAll(name, '.');
    forall k | 0 <= k < |segments| :: IsSegment(segments[k])
  }

  /**
   * The pattern ^[a-zA-Z][a-zA-Z0-9_]*(\.[a-zA-Z][a-zA-Z0-9_]*)*$ matched the way a
   * scanner reads it: AtSegmentStart needs a letter, InSegment takes identifier
   * characters, a dot starting a new segment, or the end.
   */
  predicate AtSegmentStart(s: string)
    decreases |s|, 1
  {
    |s| > 0 && IsAsciiLetter(s[0]) && InSegment(s[1..])
  }

  predicate InSegment(s: string)
    decreases |s|, 0
  {
    if |s| == 0 then true
    else if s[0] == '.' then AtSegmentStart(s[1..])
    else IsIdentPart(s[0]) && InSegment(s[1..])
  }

  predicate MatchesPackagePattern(name: Option<string>) {
    name.Some? && AtSegmentStart(name.value)
  }

  /** The pieces of a string that starts with a dot: an empty first piece, then the pieces after it. */
  lemma SegmentsAfterDot(rest: seq<string>, segments: seq<string>)
    requires segments == [""] + rest
    ensures (AllIdentPart(segments[0]) && forall k | 1 <= k < |segments| :: IsSegment(segments[k]))
        <==> forall j | 0 <= j < |rest| :: IsSegment(rest[j])
    ensures !IsSegment(segments[0])
  {
    if forall k | 1 <= k < |segments| :: IsSegment(segments[k]) {
      forall j | 0 <= j < |rest| ensures IsSegment(rest[j]) {
        assert rest[j] == segments[j + 1];
      }
    }
  }

  /** The pieces of a string that starts with another character: it joins the first piece after it. */
  lemma SegmentsAfterChar(c: char, rest: seq<string>, segments: seq<string>)
    requires |rest| >= 1 && segments == [[c] + rest[0]] + rest[1..]
    ensures (AllIdentPart(segments[0]) && forall k | 1 <= k < |segments| :: IsSegment(segments[k]))
        <==> IsIdentPart(c) && AllIdentPart(rest[0]) && forall k | 1 <= k < |rest| :: IsSegment(rest[k])
    ensures (forall k | 0 <= k < |segments| :: IsSegment(segments[k]))
        <==> IsAsciiLetter(c) && AllIdentPart(rest[0]) && forall k | 1 <= k < |rest| :: IsSegment(rest[k])
  {
    var first := segments[0];
    assert first == [c] + rest[0];
    assert first[0] == c && first[1..] == rest[0];
    assert forall k | 1 <= k < |segments| :: segments[k] == rest[k];
    if AllIdentPart(first) {
      assert IsIdentPart(first[0]);
      forall i | 0 <= i < |rest[0]| ensures IsIdentPart(rest[0][i]) {
        assert rest[0][i] == first[i + 1];
      }
    }
  }

  /** The scanner and the segment grammar agree, from both of its states. */
  lemma {:induction false} ScannerMatchesSegments(s: string)
    decreases |s|
    ensures var segments := JavaText.SplitAll(s, '.');
      && (InSegment(s) <==> AllIdentPart(segments[0]) && forall k | 1 <= k < |segments| :: IsSegment(segments[k]))
      && (AtSegmentStart(s) <==> forall k | 0 <= k < |segments| :: IsSegment(segments[k]))
  {
    var segments := JavaText.SplitAll(s, '.');
    if |s| == 0 {
      assert segments == [""];
    } else {
      ScannerMatchesSegments(s[1..]);
      var rest := JavaText.SplitAll(s[1..], '.');
      if s[0] == '.' {
        SegmentsAfterDot(rest, segments);
      } else {
        SegmentsAfterChar(s[0], rest, segments);
      }
    }
  }

  /** The validation predicate is the segment grammar: no empty segment, no leading or trailing dot. */
  lemma PatternIsSegmentGrammar(name: string)
    ensures MatchesPackagePattern(Some(name)) <==> IsPackageName(name)
    ensures MatchesPackagePattern(Some(name)) ==> |name| > 0 && name[0] != '.' && name[|name| - 1] != '.'
  {
    ScannerMatchesSegments(name);
    if MatchesPackagePattern(Some(name)) {
      NoShellCharacters(name);
      var segments := JavaText.SplitAll(name, '.');
      JavaText.SplitAllJoins(name, '.');
      LastSegmentEndsName(segments);
    }
  }

  /** The joined string ends with the last piece. */
  lemma {:induction false} LastSegmentEndsName(segments: seq<string>)
    requires |segments| >= 1 && forall k | 0 <= k < |segments| :: IsSegment(segments[k])
    ensures var j := JavaText.Join(segments, '.');
      |j| > 0 && j[0] != '.' && j[|j| - 1] != '.'
  {
    if |segments| > 1 {
      LastSegmentEndsName(segments[1..]);
      assert forall k | 0 <= k < |segments[1..]| :: segments[1..][k] == segments[k + 1];
    }
  }

  /** A matching name consists of letters, digits, underscores and dots only: no white space, no shell metacharacter. */
  lemma {:induction false} NoShellCharacters(name: string)
    decreases |name|
    ensures AtSegmentStart(name) || InSegment(name) ==>
      forall i | 0 <= i < |name| :: IsIdentPart(name[i]) || name[i] == '.'
  {
    if |name| > 0 {
      NoShellCharacters(name[1..]);
      assert forall i | 1 <= i < |name| :: name[i] == name[1..][i - 1];
    }
  }

  /** The root command for a package. */
  function GrantCommand(packageName: string): (command: string)
    ensures command == JavaText.Join(["pm", "grant", packageName, PERMISSION_CAPTURE_AUDIO_OUTPUT], ' ')
  {
    var words := ["pm", "grant", packageName, PERMISSION_CAPTURE_AUDIO_OUTPUT];
    assert words[1..][1..] == words[2..] && words[2..][1..] == words[3..];
    var tail := packageName + [' '] + PERMISSION_CAPTURE_AUDIO_OUTPUT;
    assert JavaText.Join(words[2..], ' ') == tail;
    assert JavaText.Join(words[1..], ' ') == "grant" + [' '] + tail;
    assert JavaText.Join(words, ' ') == "pm" + [' '] + ("grant" + [' '] + tail);
    assert "pm" + [' '] + ("grant" + [' '] + tail) == "pm grant " + packageName + " " + PERMISSION_CAPTURE_AUDIO_OUTPUT;
    "pm grant " + packageName + " " + PERMISSION_CAPTURE_AUDIO_OUTPUT
  }

  /** For a valid name the command splits at spaces into exactly pm, grant, the name and the permission. */
  lemma GrantCommandHasFourWords(packageName: string)
    requires MatchesPackagePattern(Some(packageName))
    ensures JavaText.SplitAll(GrantCommand(packageName), ' ') == ["pm", "grant", packageName, PERMISSION_CAPTURE_AUDIO_OUTPUT]
  {
    NoShellCharacters(packageName);
    var words := ["pm", "grant", packageName, PERMISSION_CAPTURE_AUDIO_OUTPUT];
    assert ' ' !in packageName by {
      forall i | 0 <= i < |packageName| ensures packageName[i] != ' ' {
        assert IsIdentPart(packageName[i]) || packageName[i] == '.';
      }
    }
    JavaText.JoinSplits(words, ' ');
  }

  /** The calls the grant attempt makes, in order. */
  datatype GrantCall =
    | CheckPermission               // context.checkSelfPermission
    | CheckRoot                     // RootUtil.isRooted
    | RunRootCommand(command: string)

  datatype GrantOutcome =
    | InvalidPackageName
    | AlreadyGranted
    | NotRooted
    | CommandSucceeded(verified: bool)
    | CommandFailed

  /** Answers of the platform: permission before, root probe, command result, permission after. */
  datatype GrantEnv = GrantEnv(grantedBefore: bool, rooted: bool, commandSucceeds: bool, grantedAfter: bool)

  /**
   * attemptGrantCaptureAudioOutputSync: a rejected or missing package name stops before
   * any call; a granted permission stops before the root probe; an unrooted device
   * stops before the command; otherwise the command runs and, when it succeeds, the
   * permission is checked again.
   */
  method AttemptGrantSync(packageName: Option<string>, env: GrantEnv) returns (outcome: GrantOutcome, calls: seq<GrantCall>)
    ensures outcome == InvalidPackageName <==> !MatchesPackagePattern(packageName)
    ensures outcome == InvalidPackageName ==> calls == []
    ensures outcome != InvalidPackageName ==> |calls| >= 1 && calls[0] == CheckPermission
    ensures CheckRoot in calls <==> MatchesPackagePattern(packageName) && !env.grantedBefore
    ensures (exists c | c in calls :: c.RunRootCommand?) <==>
      MatchesPackagePattern(packageName) && !env.grantedBefore && env.rooted
    ensures forall c | c in calls && c.RunRootCommand? :: c.command == GrantCommand(packageName.value)
    ensures outcome.CommandSucceeded? ==> env.commandSucceeds && outcome.verified == env.grantedAfter
    ensures outcome.CommandSucceeded? ==> calls[|calls| - 1] == CheckPermission
  {
    calls := [];
    if packageName.None? || !AtSegmentStart(packageName.value) {
      return InvalidPackageName, calls;
    }
    var name := packageName.value;
    calls := calls + [CheckPermission];
    if env.grantedBefore {
      return AlreadyGranted, calls;
    }
    calls := calls + [CheckRoot];
    if !env.rooted {
      return NotRooted, calls;
    }
    var command := "pm grant " + name + " " + PERMISSION_CAPTURE_AUDIO_OUTPUT;
    calls := calls + [RunRootCommand(command)];
    assert calls[2].RunRootCommand?;
    if env.commandSucceeds {
      calls := calls + [CheckPermission];
      outcome := CommandSucceeded(env.grantedAfter);
    } else {
      outcome := CommandFailed;
    }
  }

  /** Names the pattern accepts. */
  lemma AcceptedNames()
    ensures MatchesPackagePattern(Some("a"))
    ensures MatchesPackagePattern(Some("a.b_2"))
  {
    assert "2"[1..] == "" && InSegment("2");
    assert "_2"[1..] == "2" && InSegment("_2");
    assert "b_2"[1..] == "_2" && AtSegmentStart("b_2");
    assert ".b_2"[1..] == "b_2" && InSegment(".b_2");
    assert "a.b_2"[1..] == ".b_2";
  }

  /** Names the pattern rejects: missing, empty, an empty segment, a digit starting a segment, a shell character. */
  lemma RejectedNames()
    ensures !MatchesPackagePattern(None)
    ensures !MatchesPackagePattern(Some(""))
    ensures !MatchesPackagePattern(Some(".a"))
    ensures !MatchesPackagePattern(Some("a."))
    ensures !MatchesPackagePattern(Some("a..b"))
    ensures !MatchesPackagePattern(Some("a.1"))
    ensures !MatchesPackagePattern(Some("a;b"))
    ensures !MatchesPackagePattern(Some("a b"))
  {
    assert "a."[1..] == "." && "."[1..] == "";
    assert "a..b"[1..] == "..b" && "..b"[1..] == ".b";
    assert "a.1"[1..] == ".1" && ".1"[1..] == "1";
    assert "a;b"[1..] == ";b";
    assert "a b"[1..] == " b";
  }
}
