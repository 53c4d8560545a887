/**
 * Which identifiers share a key with another one: the exact condition, on a
 * single identifier, for each of the three encodings.
 */
module SharedKeys {
  import opened StreamIdentifier
  import opened Text

  /** The separator occurs where it can be read as the end of a network or station, or the start of a location. */
  predicate Ambiguous(f: Fields, separator: char)
    requires Complete(f)
  {
    || f.locationCode != ""
    || separator in f.network[1..]
    || (separator in f.station && f.station != [separator])
    || separator in f.channel[..|f.channel| - 1]
  }

  /** Another complete, normalised identifier spells the same text. */
  ghost predicate HasTwin(f: Fields, separator: char) {
    exists g :: IsTwin(f, g, separator)
  }

  ghost predicate IsTwin(f: Fields, g: Fields, separator: char) {
    g != f && Complete(g) && Normalised(g) && Joined(g, separator) == Joined(f, separator)
  }

  predicate IsDelimiter(separator: char) {
    separator == '_' || separator == '.'
  }

  /** A field that can appear in a normalised identifier. */
  predicate Plain(s: string) {
    NoLower(s) && ' ' !in s
  }

  lemma PlainParts(a: string, separator: char, b: string)
    requires IsDelimiter(separator)
    ensures Plain(a + [separator] + b) <==> Plain(a) && Plain(b)
  {
    var s := a + [separator] + b;
    assert forall c :: c in s <==> c in a || c == separator || c in b;
  }

  // If the condition holds there is a twin: let another occurrence be the separator.

  /** The occurrence at position `i` of the right field separates the two instead. */
  lemma MoveRight(left: string, separator: char, right: string, i: nat) returns (left': string, right': string)
    requires Plain(left) && Plain(right) && IsDelimiter(separator) && i < |right| && right[i] == separator
    ensures Plain(left') && Plain(right') && |left'| > |left| && right' == right[i + 1..]
    ensures left' + [separator] + right' == left + [separator] + right
  {
    var a := right[..i];
    left', right' := left + [separator] + a, right[i + 1..];
    assert right == a + [separator] + right';
    PlainParts(a, separator, right');
    PlainParts(left, separator, a);
  }

  /** The occurrence at position `i` of the left field separates the two instead. */
  lemma MoveLeft(left: string, separator: char, right: string, i: nat) returns (left': string, right': string)
    requires Plain(left) && Plain(right) && IsDelimiter(separator) && i < |left| && left[i] == separator
    ensures Plain(left') && Plain(right') && left' == left[..i] && |right'| > |right|
    ensures left' + [separator] + right' == left + [separator] + right
  {
    var b := left[i + 1..];
    left', right' := left[..i], b + [separator] + right;
    assert left == left' + [separator] + b;
    PlainParts(left', separator, b);
    PlainParts(b, separator, right);
  }

  /** The text, with the network and station or the station and channel taken together. */
  lemma JoinedGroups(f: Fields, separator: char)
    ensures var tail := if f.locationCode == "" then "" else [separator] + f.locationCode;
            && Joined(f, separator) == (f.network + [separator] + f.station) + ([separator] + f.channel + tail)
            && Joined(f, separator) == f.network + [separator] + ((f.station + [separator] + f.channel) + tail)
  {
    var tail := if f.locationCode == "" then "" else [separator] + f.locationCode;
    assert f.channel + tail == if f.locationCode == "" then f.channel else f.channel + [separator] + f.locationCode;
  }

  lemma AmbiguousHasTwin(f: Fields, separator: char)
    requires Complete(f) && Normalised(f) && IsDelimiter(separator) && Ambiguous(f, separator)
    ensures HasTwin(f, separator)
  {
    var g := f;
    if f.locationCode != "" {
      PlainParts(f.channel, separator, f.locationCode);
      g := f.(channel := f.channel + [separator] + f.locationCode, locationCode := "");
    } else if separator in f.network[1..] {
      var i :| 1 <= i < |f.network| && f.network[i] == separator;
      var n, s := MoveLeft(f.network, separator, f.station, i);
      g := f.(network := n, station := s);
    } else if separator in f.channel[..|f.channel| - 1] {
      var i :| 0 <= i < |f.channel| - 1 && f.channel[i] == separator;
      var s, c := MoveRight(f.station, separator, f.channel, i);
      g := f.(station := s, channel := c);
    } else {
      var i :| 0 <= i < |f.station| && f.station[i] == separator;
      if i + 1 < |f.station| {
        var n, s := MoveRight(f.network, separator, f.station, i);
        g := f.(network := n, station := s);
      } else {
        var s, c := MoveLeft(f.station, separator, f.channel, i);
        g := f.(station := s, channel := c);
      }
    }
    JoinedGroups(f, separator);
    JoinedGroups(g, separator);
    assert IsTwin(f, g, separator);
  }

  // If it does not hold, the separators in the text are where the fields end.

  /** Where the text of an identifier has its separators, and what lies between them. */
  lemma Cuts(g: Fields, separator: char)
    requires Complete(g)
    ensures var w, p, q := Joined(g, separator), |g.network|, |g.network| + 1 + |g.station|;
            && 1 <= p && p + 2 <= q && q + 2 <= |w|
            && w[p] == separator && w[q] == separator
            && g.network == w[..p] && g.station == w[p + 1..q]
            && (g.locationCode == "" ==> g.channel == w[q + 1..])
            && (g.locationCode != "" ==>
                  var r := q + 1 + |g.channel|; q + 2 <= r && r + 2 <= |w| && w[r] == separator)
  {
    var w := Joined(g, separator);
    var rest := if g.locationCode == "" then g.channel else g.channel + [separator] + g.locationCode;
    assert w == g.network + [separator] + g.station + [separator] + rest;
  }

  /** Inside the text of an unambiguous identifier there are only the two separators it was joined with. */
  lemma OnlyTwoSeparators(f: Fields, separator: char, i: nat)
    requires Complete(f) && !Ambiguous(f, separator)
    requires 1 <= i && i + 2 <= |Joined(f, separator)| && Joined(f, separator)[i] == separator
    ensures i == |f.network| || i == |f.network| + 1 + |f.station|
            || (f.station == [separator] && i == |f.network| + 1)
  {
    var w, p, q := Joined(f, separator), |f.network|, |f.network| + 1 + |f.station|;
    assert w == f.network + [separator] + f.station + [separator] + f.channel;
    assert forall k :: 1 <= k < p ==> f.network[1..][k - 1] == w[k];
    assert forall k :: p < k < q ==> f.station[k - p - 1] == w[k];
    assert forall k :: q < k < |w| - 1 ==> f.channel[..|f.channel| - 1][k - q - 1] == w[k];
  }

  lemma UnambiguousHasNoTwin(f: Fields, g: Fields, separator: char)
    requires Complete(f) && Complete(g) && !Ambiguous(f, separator)
    requires Joined(g, separator) == Joined(f, separator)
    ensures g == f
  {
    Cuts(f, separator);
    Cuts(g, separator);
    if g.locationCode != "" {
      OnlyTwoSeparators(f, separator, |g.network| + 1 + |g.station| + 1 + |g.channel|);
    }
    OnlyTwoSeparators(f, separator, |g.network|);
    OnlyTwoSeparators(f, separator, |g.network| + 1 + |g.station|);
  }

  lemma TwinExactly(f: Fields, separator: char)
    requires Complete(f) && Normalised(f) && IsDelimiter(separator)
    ensures HasTwin(f, separator) <==> Ambiguous(f, separator)
  {
    if Ambiguous(f, separator) {
      AmbiguousHasTwin(f, separator);
    } else if HasTwin(f, separator) {
      var g :| IsTwin(f, g, separator);
      UnambiguousHasNoTwin(f, g, separator);
    }
  }

  // The keys.

  lemma KeyIsLowerJoined(f: Fields)
    ensures MetricsKey(f) == ToLower(Joined(f, '_'))
  {
    assert f.network + "_" + f.station + "_" + f.channel + (if f.locationCode == "" then "" else "_" + f.locationCode)
        == Joined(f, '_');
  }

  lemma SameKey(f: Fields, g: Fields)
    requires Normalised(f) && Normalised(g)
    ensures MetricsKey(f) == MetricsKey(g) <==> Joined(f, '_') == Joined(g, '_')
  {
    KeyIsLowerJoined(f);
    KeyIsLowerJoined(g);
    NoLowerJoined(f);
    NoLowerJoined(g);
    if MetricsKey(f) == MetricsKey(g) {
      ToLowerInjective(Joined(f, '_'), Joined(g, '_'));
    }
  }

  /**
   * Another complete, normalised identifier has the metrics key of `f` exactly
   * when `f` has a location code or an underscore that can be read as a
   * separator.
   */
  lemma MetricsKeyIsShared(f: Fields)
    requires Complete(f) && Normalised(f)
    ensures (exists g :: g != f && Complete(g) && Normalised(g) && MetricsKey(g) == MetricsKey(f))
            <==> Ambiguous(f, '_')
  {
    TwinExactly(f, '_');
    if g :| g != f && Complete(g) && Normalised(g) && MetricsKey(g) == MetricsKey(f) {
      SameKey(g, f);
      assert IsTwin(f, g, '_');
    }
    if g :| IsTwin(f, g, '_') {
      SameKey(g, f);
    }
  }

  /** The same for the dotted name, which is the key of the map of streams. */
  lemma DottedNameIsShared(f: Fields)
    requires Complete(f) && Normalised(f)
    ensures (exists g :: g != f && Complete(g) && Normalised(g) && DottedName(g) == DottedName(f))
            <==> Ambiguous(f, '.')
  {
    TwinExactly(f, '.');
    forall g | Complete(g) ensures DottedName(g) == Joined(g, '.') {
    }
    if g :| g != f && Complete(g) && Normalised(g) && DottedName(g) == DottedName(f) {
      assert IsTwin(f, g, '.');
    }
  }

  /**
   * Even an identifier without underscores shares its metrics key, and its dotted
   * name, when it has a location code: with the one whose channel spells both.
   */
  lemma LocationCodeIsNotDistinguished(f: Fields)
    requires Complete(f) && Normalised(f) && f.locationCode != ""
    ensures var g := f.(channel := f.channel + "_" + f.locationCode, locationCode := "");
            g != f && Complete(g) && Normalised(g) && MetricsKey(g) == MetricsKey(f)
    ensures var g := f.(channel := f.channel + "." + f.locationCode, locationCode := "");
            g != f && Complete(g) && Normalised(g) && DottedName(g) == DottedName(f)
  {
    var g, h := f.(channel := f.channel + "_" + f.locationCode, locationCode := ""),
                f.(channel := f.channel + "." + f.locationCode, locationCode := "");
    PlainParts(f.channel, '_', f.locationCode);
    PlainParts(f.channel, '.', f.locationCode);
    SameKey(g, f);
    assert DottedName(h) == Joined(h, '.') && DottedName(f) == Joined(f, '.');
  }

  // The DataLink stream name, which has a place for the location code even if there is none.

  function ServerText(f: Fields): string {
    f.network + "_" + (f.station + "_" + (f.locationCode + "_" + f.channel))
  }

  predicate ServerAmbiguous(f: Fields)
    requires Complete(f)
  {
    || '_' in f.network[1..]
    || ('_' in f.station && f.station != "_")
    || '_' in f.locationCode
    || '_' in f.channel[..|f.channel| - 1]
  }

  ghost predicate IsServerTwin(f: Fields, g: Fields) {
    g != f && Complete(g) && Normalised(g) && ServerText(g) == ServerText(f)
  }

  lemma ServerGroups(f: Fields)
    ensures ServerText(f) == (f.network + "_" + f.station) + ("_" + f.locationCode + "_" + f.channel)
    ensures ServerText(f) == f.network + "_" + ((f.station + "_" + f.locationCode) + ("_" + f.channel))
    ensures ServerText(f) == f.network + "_" + (f.station + "_" + (f.locationCode + "_" + f.channel))
  {
  }

  lemma ServerAmbiguousHasTwin(f: Fields) returns (g: Fields)
    requires Complete(f) && Normalised(f) && ServerAmbiguous(f)
    ensures IsServerTwin(f, g)
  {
    if '_' in f.network[1..] {
      var i :| 1 <= i < |f.network| && f.network[i] == '_';
      var n, s := MoveLeft(f.network, '_', f.station, i);
      g := f.(network := n, station := s);
    } else if '_' in f.channel[..|f.channel| - 1] {
      var i :| 0 <= i < |f.channel| - 1 && f.channel[i] == '_';
      var l, c := MoveRight(f.locationCode, '_', f.channel, i);
      g := f.(locationCode := l, channel := c);
    } else if '_' in f.locationCode {
      var i :| 0 <= i < |f.locationCode| && f.locationCode[i] == '_';
      var s, l := MoveRight(f.station, '_', f.locationCode, i);
      g := f.(station := s, locationCode := l);
    } else {
      var i :| 0 <= i < |f.station| && f.station[i] == '_';
      if i + 1 < |f.station| {
        var n, s := MoveRight(f.network, '_', f.station, i);
        g := f.(network := n, station := s);
      } else {
        var s, l := MoveLeft(f.station, '_', f.locationCode, i);
        g := f.(station := s, locationCode := l);
      }
    }
    ServerGroups(f);
    ServerGroups(g);
  }

  lemma ServerCuts(g: Fields)
    requires Complete(g)
    ensures var w, p := ServerText(g), |g.network|;
            var q := p + 1 + |g.station|;
            var r := q + 1 + |g.locationCode|;
            && 1 <= p && p + 2 <= q && q + 1 <= r && r + 2 <= |w|
            && w[p] == '_' && w[q] == '_' && w[r] == '_'
            && g.network == w[..p] && g.station == w[p + 1..q]
            && g.locationCode == w[q + 1..r] && g.channel == w[r + 1..]
  {
    var w := ServerText(g);
    assert w == g.network + "_" + g.station + "_" + g.locationCode + "_" + g.channel;
  }

  lemma OnlyThreeSeparators(f: Fields, i: nat)
    requires Complete(f) && !ServerAmbiguous(f)
    requires 1 <= i && i + 2 <= |ServerText(f)| && ServerText(f)[i] == '_'
    ensures var p := |f.network|;
            var q := p + 1 + |f.station|;
            i == p || i == q || i == q + 1 + |f.locationCode| || (f.station == "_" && i == p + 1)
  {
    var w, p := ServerText(f), |f.network|;
    var q := p + 1 + |f.station|;
    var r := q + 1 + |f.locationCode|;
    assert w == f.network + "_" + f.station + "_" + f.locationCode + "_" + f.channel;
    assert forall k :: 1 <= k < p ==> f.network[1..][k - 1] == w[k];
    assert forall k :: p < k < q ==> f.station[k - p - 1] == w[k];
    assert forall k :: q < k < r ==> f.locationCode[k - q - 1] == w[k];
    assert forall k :: r < k < |w| - 1 ==> f.channel[..|f.channel| - 1][k - r - 1] == w[k];
  }

  lemma ServerUnambiguousHasNoTwin(f: Fields, g: Fields)
    requires Complete(f) && Complete(g) && !ServerAmbiguous(f) && ServerText(g) == ServerText(f)
    ensures g == f
  {
    ServerCuts(f);
    ServerCuts(g);
    OnlyThreeSeparators(f, |g.network|);
    OnlyThreeSeparators(f, |g.network| + 1 + |g.station|);
    OnlyThreeSeparators(f, |g.network| + 1 + |g.station| + 1 + |g.locationCode|);
  }

  lemma SameServerName(f: Fields, g: Fields)
    ensures DataLinkName(f) == DataLinkName(g) <==> ServerText(f) == ServerText(g)
  {
    assert DataLinkName(f) == ServerText(f) + "/MSEED" && DataLinkName(g) == ServerText(g) + "/MSEED";
    if DataLinkName(f) == DataLinkName(g) {
      assert ServerText(f) == DataLinkName(f)[..|DataLinkName(f)| - 6];
      assert ServerText(g) == DataLinkName(g)[..|DataLinkName(g)| - 6];
    }
  }

  /** On the server a location code does distinguish streams; an underscore in it does not. */
  lemma DataLinkNameIsShared(f: Fields)
    requires Complete(f) && Normalised(f)
    ensures (exists g :: g != f && Complete(g) && Normalised(g) && DataLinkName(g) == DataLinkName(f))
            <==> ServerAmbiguous(f)
  {
    if ServerAmbiguous(f) {
      var g := ServerAmbiguousHasTwin(f);
      SameServerName(g, f);
    } else if g :| g != f && Complete(g) && Normalised(g) && DataLinkName(g) == DataLinkName(f) {
      SameServerName(g, f);
      ServerUnambiguousHasNoTwin(f, g);
    }
  }
}
