/** Topic-based debug logging. A comma-separated topic string, read once at
    start-up, becomes the set of enabled topics; a logger for a topic is enabled
    when its topic or the wildcard "*" is in that set, and a disabled logger
    emits nothing. The package-level topic map is passed explicitly here, and a
    logger's output is the list of records it would hand to the log backend. */
module Logging {

  // ---------------------------------------------------------------------------
  // Splitting and trimming

  /** The first position of c in s. */
  function IndexOf(s: string, c: char): (i: nat)
    requires c in s
    ensures i < |s| && s[i] == c && c !in s[..i]
  {
    if s[0] == c then 0
    else
      assert c in s[1..] by { var k :| 0 <= k < |s| && s[k] == c; assert s[1..][k - 1] == c; }
      var j := IndexOf(s[1..], c);
      assert s[..j + 1] == [s[0]] + s[1..][..j];
      j + 1
  }

  /** The pieces of s between separators; s itself when it holds no separator. */
  function Split(s: string, sep: char): (pieces: seq<string>)
    ensures |pieces| >= 1
    ensures forall i :: 0 <= i < |pieces| ==> sep !in pieces[i]
    decreases |s|
  {
    if sep in s then
      var i := IndexOf(s, sep);
      [s[..i]] + Split(s[i + 1..], sep)
    else [s]
  }

  /** The pieces glued back together with sep between consecutive ones. */
  function Join(pieces: seq<string>, sep: char): string
    requires |pieces| >= 1
  {
    if |pieces| == 1 then pieces[0] else pieces[0] + [sep] + Join(pieces[1..], sep)
  }

  /** White space as Go's unicode.IsSpace defines it. */
  predicate IsSpace(c: char)
  {
    c == ' ' || c == '\t' || c == '\n' || c == '\r' || c == '\U{0B}' || c == '\U{0C}'
    || c == '\U{85}' || c == '\U{A0}' || c == '\U{1680}'
    || ('\U{2000}' <= c <= '\U{200A}')
    || c == '\U{2028}' || c == '\U{2029}' || c == '\U{202F}' || c == '\U{205F}' || c == '\U{3000}'
  }

  /** s without its leading white space. */
  function TrimLeft(s: string): (r: string)
    ensures |r| <= |s|
  {
    if |s| > 0 && IsSpace(s[0]) then TrimLeft(s[1..]) else s
  }

  /** s without its trailing white space. */
  function TrimRight(s: string): (r: string)
    ensures |r| <= |s|
  {
    if |s| > 0 && IsSpace(s[|s| - 1]) then TrimRight(s[..|s| - 1]) else s
  }

  function TrimSpace(s: string): string
  {
    TrimRight(TrimLeft(s))
  }

  // ---------------------------------------------------------------------------
  // The enabled-topic set

  /** Every non-empty trimmed piece, mapped to true. */
  function TopicMap(pieces: seq<string>): map<string, bool>
  {
    if |pieces| == 0 then map[]
    else
      var m := TopicMap(pieces[..|pieces| - 1]);
      var topic := TrimSpace(pieces[|pieces| - 1]);
      if topic != "" then m[topic := true] else m
  }

  /** The topics the DEBUG_TOPICS string enables: none for the empty string,
      the wildcard alone for exactly "all", otherwise every non-empty trimmed
      comma-separated piece. */
  function EnabledTopics(topics: string): (m: map<string, bool>)
    ensures forall t :: t in m ==> m[t]
    ensures "" !in m
    ensures topics != "all" && "*" in m ==> Listed(Split(topics, ','), "*")
  {
    if topics == "" then map[]
    else if topics == "all" then map["*" := true]
    else
      TopicMapExact(Split(topics, ','));
      TopicMap(Split(topics, ','))
  }

  /** The start-up parse of the topic string. */
  method ParseTopics(topics: string) returns (enabledTopics: map<string, bool>)
    ensures enabledTopics == EnabledTopics(topics)
  {
    enabledTopics := map[];
    if topics == "" {
      return;
    }
    if topics == "all" {
      enabledTopics := enabledTopics["*" := true];
      return;
    }
    var pieces := Split(topics, ',');
    for i := 0 to |pieces|
      invariant enabledTopics == TopicMap(pieces[..i])
    {
      assert pieces[..i + 1][..i] == pieces[..i];
      var topic := TrimSpace(pieces[i]);
      if topic != "" {
        enabledTopics := enabledTopics[topic := true];
      }
    }
    assert pieces[..|pieces|] == pieces;
  }

  // ---------------------------------------------------------------------------
  // Loggers

  datatype Logger = Logger(topic: string, enabled: bool)
  {
    /** Fixed when the logger is made: an enabled logger emits at every level,
        a disabled one at none. */
    function Enabled(): (b: bool)
      ensures b <==> Emit(this, DebugLevel, "", []) != []
      ensures b <==> Emit(this, InfoLevel, "", []) != []
      ensures b <==> Emit(this, WarnLevel, "", []) != []
    {
      enabled
    }
  }

  /** A missing key reads as false, as a Go map lookup does. */
  function Lookup(enabledTopics: map<string, bool>, topic: string): bool
  {
    topic in enabledTopics && enabledTopics[topic]
  }

  function New(enabledTopics: map<string, bool>, topic: string): (l: Logger)
    ensures l.topic == topic
    ensures l.Enabled() <==> Lookup(enabledTopics, "*") || Lookup(enabledTopics, topic)
  {
    Logger(topic, Lookup(enabledTopics, "*") || Lookup(enabledTopics, topic))
  }

  datatype Level = DebugLevel | InfoLevel | WarnLevel

  /** A record handed to the log backend; its arguments start with the topic. */
  datatype LogRecord = LogRecord(level: Level, msg: string, args: seq<string>)

  function Emit(l: Logger, level: Level, msg: string, args: seq<string>): (out: seq<LogRecord>)
    ensures !l.enabled ==> out == []
    ensures l.enabled ==> && |out| == 1 && out[0].level == level && out[0].msg == msg
                            && |out[0].args| == |args| + 2
                            && out[0].args[..2] == ["topic", l.topic] && out[0].args[2..] == args
  {
    if !l.enabled then [] else [LogRecord(level, msg, ["topic", l.topic] + args)]
  }

  function Debug(l: Logger, msg: string, args: seq<string>): (out: seq<LogRecord>)
    ensures |out| <= 1 && (out == [] <==> !l.enabled)
    ensures forall r :: r in out ==> r.level == DebugLevel && r.msg == msg && r.args == ["topic", l.topic] + args
  {
    Emit(l, DebugLevel, msg, args)
  }

  function Info(l: Logger, msg: string, args: seq<string>): (out: seq<LogRecord>)
    ensures |out| <= 1 && (out == [] <==> !l.enabled)
    ensures forall r :: r in out ==> r.level == InfoLevel && r.msg == msg && r.args == ["topic", l.topic] + args
  {
    Emit(l, InfoLevel, msg, args)
  }

  function Warn(l: Logger, msg: string, args: seq<string>): (out: seq<LogRecord>)
    ensures |out| <= 1 && (out == [] <==> !l.enabled)
    ensures forall r :: r in out ==> r.level == WarnLevel && r.msg == msg && r.args == ["topic", l.topic] + args
  {
    Emit(l, WarnLevel, msg, args)
  }

  // ---------------------------------------------------------------------------
  // Lemmas

  /** Splitting loses nothing: joining the pieces gives the string back. */
  lemma {:induction false} SplitJoin(s: string, sep: char)
    ensures Join(Split(s, sep), sep) == s
    decreases |s|
  {
    if sep in s {
      var i := IndexOf(s, sep);
      SplitJoin(s[i + 1..], sep);
      var pieces := Split(s, sep);
      assert pieces[1..] == Split(s[i + 1..], sep);
      assert s == s[..i] + [sep] + s[i + 1..];
    }
  }

  /** TrimLeft drops exactly the leading white space. */
  lemma {:induction false} TrimLeftShape(s: string)
    ensures var r := TrimLeft(s);
            && r == s[|s| - |r|..]
            && (forall j :: 0 <= j < |s| - |r| ==> IsSpace(s[j]))
            && (|r| > 0 ==> !IsSpace(r[0]))
  {
    if |s| > 0 && IsSpace(s[0]) {
      TrimLeftShape(s[1..]);
      var r := TrimLeft(s);
      forall j | 0 <= j < |s| - |r|
        ensures IsSpace(s[j])
      {
        if j > 0 {
          assert s[j] == s[1..][j - 1];
        }
      }
    }
  }

  /** TrimRight drops exactly the trailing white space. */
  lemma {:induction false} TrimRightShape(s: string)
    ensures var r := TrimRight(s);
            && r == s[..|r|]
            && (forall j :: |r| <= j < |s| ==> IsSpace(s[j]))
            && (|r| > 0 ==> !IsSpace(r[|r| - 1]))
  {
    if |s| > 0 && IsSpace(s[|s| - 1]) {
      TrimRightShape(s[..|s| - 1]);
      var r := TrimRight(s);
      forall j | |r| <= j < |s|
        ensures IsSpace(s[j])
      {
        if j < |s| - 1 {
          assert s[j] == s[..|s| - 1][j];
        }
      }
    }
  }

  /** Trimming removes the white space at both ends and nothing else. */
  lemma TrimSpaceShape(s: string)
    ensures var k, r := |s| - |TrimLeft(s)|, TrimSpace(s);
            && k + |r| <= |s| && r == s[k..k + |r|]
            && (forall j :: 0 <= j < k ==> IsSpace(s[j]))
            && (forall j :: k + |r| <= j < |s| ==> IsSpace(s[j]))
            && (|r| > 0 ==> !IsSpace(r[0]) && !IsSpace(r[|r| - 1]))
  {
    var l := TrimLeft(s);
    var r := TrimRight(l);
    var k := |s| - |l|;
    TrimLeftShape(s);
    TrimRightShape(l);
    assert r == s[k..k + |r|];
    forall j | k + |r| <= j < |s|
      ensures IsSpace(s[j])
    {
      assert s[j] == l[j - k];
    }
    if |r| > 0 {
      assert r[0] == l[0];
    }
  }

  /** Some piece, once trimmed, is t. */
  ghost predicate Listed(pieces: seq<string>, t: string)
  {
    exists i :: 0 <= i < |pieces| && TrimSpace(pieces[i]) == t
  }

  /** The enabled set holds exactly the non-empty trimmed pieces, all mapped to true. */
  lemma {:induction false} TopicMapExact(pieces: seq<string>)
    ensures forall t :: t in TopicMap(pieces) ==> TopicMap(pieces)[t]
    ensures forall t :: t in TopicMap(pieces) <==> t != "" && Listed(pieces, t)
  {
    if |pieces| > 0 {
      var init := pieces[..|pieces| - 1];
      TopicMapExact(init);
      forall t | t != "" && Listed(pieces, t)
        ensures t in TopicMap(pieces)
      {
        var i :| 0 <= i < |pieces| && TrimSpace(pieces[i]) == t;
        if i < |pieces| - 1 {
          assert TrimSpace(init[i]) == t;
        }
      }
      forall t | t in TopicMap(pieces)
        ensures Listed(pieces, t)
      {
        if t in TopicMap(init) {
          var i :| 0 <= i < |init| && TrimSpace(init[i]) == t;
          assert TrimSpace(pieces[i]) == t;
        } else {
          assert TrimSpace(pieces[|pieces| - 1]) == t;
        }
      }
    }
  }

  /** An empty topic string enables no logger. */
  lemma NoTopicsEnableNothing(topic: string)
    ensures EnabledTopics("") == map[]
    ensures !New(EnabledTopics(""), topic).Enabled()
  {
  }

  /** "all" enables the wildcard alone, and with it every logger. */
  lemma AllEnablesEverything(topic: string)
    ensures EnabledTopics("all") == map["*" := true]
    ensures New(EnabledTopics("all"), topic).Enabled()
  {
  }

  /** One topic's lookup in the parsed map. */
  lemma TopicMapLookup(pieces: seq<string>, t: string)
    ensures Lookup(TopicMap(pieces), t) <==> t != "" && Listed(pieces, t)
  {
    TopicMapExact(pieces);
  }

  /** For any other string, a logger is enabled exactly when some trimmed piece
      is "*", or some trimmed piece is its (non-empty) topic. */
  lemma EnabledIffListed(topics: string, topic: string)
    requires topics != "" && topics != "all"
    ensures New(EnabledTopics(topics), topic).Enabled() <==>
              Listed(Split(topics, ','), "*") || (topic != "" && Listed(Split(topics, ','), topic))
  {
    var pieces := Split(topics, ',');
    var m := EnabledTopics(topics);
    assert m == TopicMap(pieces);
    TopicMapLookup(pieces, "*");
    TopicMapLookup(pieces, topic);
    assert New(m, topic).Enabled() <==> Lookup(m, "*") || Lookup(m, topic);
  }

  /** A disabled logger emits nothing at any level. */
  lemma DisabledIsSilent(l: Logger, msg: string, args: seq<string>)
    requires !l.Enabled()
    ensures Debug(l, msg, args) == [] && Info(l, msg, args) == [] && Warn(l, msg, args) == []
  {
  }

  /** The logger tests: a listed topic is enabled and another is not; the
      wildcard enables anything; an empty set enables nothing. */
  lemma LoggerScenarios()
    ensures New(map["test" := true], "test").Enabled()
    ensures !New(map["test" := true], "other").Enabled()
    ensures New(map["*" := true], "anything").Enabled() && New(map["*" := true], "whatever").Enabled()
    ensures !New(map[], "anything").Enabled()
  {
  }

  /** IndexOf finds the first occurrence and no other. */
  lemma IndexOfFirst(s: string, c: char, i: nat)
    requires i < |s| && s[i] == c && c !in s[..i]
    ensures IndexOf(s, c) == i
  {
  }

  /** One step of Split: the piece before the first separator, then the rest. */
  lemma SplitAt(s: string, sep: char, i: nat)
    requires i < |s| && s[i] == sep && sep !in s[..i]
    ensures Split(s, sep) == [s[..i]] + Split(s[i + 1..], sep)
  {
    IndexOfFirst(s, sep, i);
  }

  lemma SplitLastPieces(s: string)
    requires s == ",sma "
    ensures Split(s, ',') == ["", "sma "]
  {
    var rest := s[1..];
    assert rest == "sma ";
    assert ',' !in rest;
    SplitAt(s, ',', 0);
  }

  lemma SplitScenario(s: string)
    requires s == " atr,,sma "
    ensures Split(s, ',') == [" atr", "", "sma "]
  {
    SplitLastPieces(s[5..]);
    assert s[..4] == " atr";
    SplitAt(s, ',', 4);
  }

  lemma TrimScenario()
    ensures TrimSpace(" atr") == "atr" && TrimSpace("") == "" && TrimSpace("sma ") == "sma"
  {
    assert " atr"[1..] == "atr";
    assert "sma "[..3] == "sma";
  }

  /** Parsing one more piece adds its trimmed text, unless that is empty. */
  lemma TopicMapSnoc(pieces: seq<string>, p: string)
    ensures TopicMap(pieces + [p]) ==
              if TrimSpace(p) != "" then TopicMap(pieces)[TrimSpace(p) := true] else TopicMap(pieces)
  {
    assert (pieces + [p])[..|pieces|] == pieces;
  }

  /** The topic map of three pieces, one piece at a time. */
  lemma TopicMapOfThree(a: string, b: string, c: string)
    ensures var m1 := if TrimSpace(a) != "" then map[TrimSpace(a) := true] else map[];
            var m2 := if TrimSpace(b) != "" then m1[TrimSpace(b) := true] else m1;
            TopicMap([a, b, c]) == if TrimSpace(c) != "" then m2[TrimSpace(c) := true] else m2
  {
    TopicMapSnoc([], a);
    TopicMapSnoc([a], b);
    assert [a] + [b] == [a, b];
    TopicMapSnoc([a, b], c);
    assert [a, b] + [c] == [a, b, c];
  }

  /** " atr,,sma " enables the two topics, trimmed, and nothing else. */
  lemma ParseScenario(s: string)
    requires s == " atr,,sma "
    ensures EnabledTopics(s) == map["atr" := true, "sma" := true]
  {
    SplitScenario(s);
    TrimScenario();
    TopicMapOfThree(" atr", "", "sma ");
  }

  /** Only the exact string "all" is the wildcard: " all" enables the topic
      "all" and no other. */
  lemma PaddedAllIsATopic()
    ensures EnabledTopics(" all") == map["all" := true]
    ensures !New(EnabledTopics(" all"), "atr").Enabled()
  {
    assert ',' !in " all";
    assert Split(" all", ',') == [" all"];
    assert TrimLeft(" all") == "all";
    assert TrimSpace(" all") == "all";
    assert [" all"][..0] == [];
  }
}
