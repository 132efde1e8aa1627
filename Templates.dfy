/**
 * The placeholder scanner of GetCustomEmailTemplate: when a custom email has
 * no stored content, the built-in message text is scanned character by
 * character and every `{...}` run is copied into a slice pre-sized to the
 * number of '{' characters.
 */
module Templates {
  import opened Basics

  /**
   * The entries the scanner closes, in order, when it starts on `s` with the
   * given `found` flag and pending buffer `buf`. Outside a placeholder every
   * character other than a brace is skipped; a '{' (or any character inside a
   * placeholder) is appended to the buffer; a '}' appends itself, closes the
   * buffer as one entry and leaves the placeholder.
   */
  function ScanFrom(s: string, found: bool, buf: string): seq<string>
    decreases |s|
  {
    if s == [] then []
    else if !found && s[0] != '{' && s[0] != '}' then ScanFrom(s[1..], found, buf)
    else if s[0] == '}' then [buf + [s[0]]] + ScanFrom(s[1..], false, "")
    else ScanFrom(s[1..], true, buf + [s[0]])
  }

  /** All entries the scanner closes on a whole template. */
  function Closed(content: string): (r: seq<string>)
    ensures |r| == Count(content, '}')
  {
    ScanFromLength(content, false, "");
    ScanFrom(content, false, "")
  }

  /** The pre-sized slice: the first closed entries, the remaining slots left as "". */
  function Padded(entries: seq<string>, n: nat): (r: seq<string>)
    requires |entries| <= n
    ensures |r| == n
    ensures forall k :: 0 <= k < |entries| ==> r[k] == entries[k]
    ensures forall k :: |entries| <= k < n ==> r[k] == ""
  {
    entries + seq(n - |entries|, _ => "")
  }

  /** One entry as the scanner writes it: it ends in '}' and holds no other '}'. */
  predicate WellFormedEntry(e: string)
  {
    |e| > 0 && e[|e| - 1] == '}' && '}' !in e[..|e| - 1]
  }

  /** One entry is closed per '}' character. */
  lemma {:induction false} ScanFromLength(s: string, found: bool, buf: string)
    ensures |ScanFrom(s, found, buf)| == Count(s, '}')
  {
    if s != [] {
      if !found && s[0] != '{' && s[0] != '}' {
        ScanFromLength(s[1..], found, buf);
      } else if s[0] == '}' {
        ScanFromLength(s[1..], false, "");
      } else {
        ScanFromLength(s[1..], true, buf + [s[0]]);
      }
    }
  }

  /** Every closed entry ends in '}' and contains no other '}'. */
  lemma {:induction false} ScanFromWellFormed(s: string, found: bool, buf: string)
    requires '}' !in buf
    ensures forall k :: 0 <= k < |ScanFrom(s, found, buf)| ==> WellFormedEntry(ScanFrom(s, found, buf)[k])
  {
    if s != [] {
      if !found && s[0] != '{' && s[0] != '}' {
        ScanFromWellFormed(s[1..], found, buf);
      } else if s[0] == '}' {
        ScanFromWellFormed(s[1..], false, "");
        var e := buf + [s[0]];
        assert e[..|e| - 1] == buf;
      } else {
        ScanFromWellFormed(s[1..], true, buf + [s[0]]);
      }
    }
  }

  /**
   * The scanning loop of GetCustomEmailTemplate. `ok` is false when the source
   * indexes past the end of its slice (an index-out-of-range panic), which
   * happens exactly when the text has more '}' than '{'.
   */
  method ScanVariables(content: string) returns (variables: array<string>, ok: bool)
    ensures variables.Length == Count(content, '{')
    ensures ok <==> Count(content, '}') <= Count(content, '{')
    ensures ok ==> variables[..] == Padded(Closed(content), Count(content, '{'))
  {
    var n := Count(content, '{');
    variables := new string[n](_ => "");
    ScanFromLength(content, false, "");
    var i := 0;
    var found := false;
    var buf := "";
    var pos := 0;
    ghost var emitted: seq<string> := [];
    while pos < |content|
      invariant 0 <= pos <= |content|
      invariant i == |emitted| <= n
      invariant variables.Length == n
      invariant emitted + ScanFrom(content[pos..], found, buf) == Closed(content)
      invariant forall k :: 0 <= k < i ==> variables[k] == emitted[k]
      invariant forall k :: i <= k < n ==> variables[k] == ""
    {
      var c := content[pos];
      assert content[pos..][1..] == content[pos + 1..];
      if !found && c != '{' && c != '}' {
        pos := pos + 1;
        continue;
      }
      found := true;
      buf := buf + [c];
      if c == '}' {
        if i >= n {
          ScanFromLength(content[pos..], found, buf);
          return variables, false;
        }
        found := false;
        variables[i] := buf;
        emitted := emitted + [buf];
        buf := "";
        i := i + 1;
      }
      pos := pos + 1;
    }
    assert emitted == Closed(content);
    ok := true;
  }

  /** A template as the alternation of plain text and `{name}` placeholders. */
  datatype Segment = Text(text: string) | Placeholder(name: string)

  predicate BraceFree(s: string)
  {
    '{' !in s && '}' !in s
  }

  predicate NonNested(segments: seq<Segment>)
  {
    forall k :: 0 <= k < |segments| ==> BraceFree(if segments[k].Text? then segments[k].text else segments[k].name)
  }

  function Render(segments: seq<Segment>): string
  {
    if segments == [] then ""
    else (match segments[0]
          case Text(t) => t
          case Placeholder(name) => "{" + name + "}") + Render(segments[1..])
  }

  function Placeholders(segments: seq<Segment>): seq<string>
  {
    if segments == [] then []
    else (match segments[0]
          case Text(_) => []
          case Placeholder(name) => ["{" + name + "}"]) + Placeholders(segments[1..])
  }

  lemma {:induction false} SkipText(t: string, rest: string)
    requires BraceFree(t)
    ensures ScanFrom(t + rest, false, "") == ScanFrom(rest, false, "")
  {
    if t != [] {
      assert (t + rest)[0] == t[0] && t[0] in t;
      assert (t + rest)[1..] == t[1..] + rest;
      assert BraceFree(t[1..]) by {
        forall k | 0 <= k < |t[1..]| ensures t[1..][k] == t[k + 1] { }
      }
      SkipText(t[1..], rest);
    } else {
      assert t + rest == rest;
    }
  }

  lemma {:induction false} CollectName(name: string, rest: string, buf: string)
    requires BraceFree(name)
    ensures ScanFrom(name + rest, true, buf) == ScanFrom(rest, true, buf + name)
  {
    if name != [] {
      assert (name + rest)[0] == name[0] && name[0] in name;
      assert (name + rest)[1..] == name[1..] + rest;
      assert BraceFree(name[1..]) by {
        forall k | 0 <= k < |name[1..]| ensures name[1..][k] == name[k + 1] { }
      }
      CollectName(name[1..], rest, buf + [name[0]]);
      assert buf + [name[0]] + name[1..] == buf + name;
    } else {
      assert name + rest == rest;
      assert buf + name == buf;
    }
  }

  lemma ScanOnePlaceholder(name: string, rest: string)
    requires BraceFree(name)
    ensures ScanFrom("{" + name + "}" + rest, false, "") == ["{" + name + "}"] + ScanFrom(rest, false, "")
  {
    var s := "{" + name + "}" + rest;
    var t := "}" + rest;
    assert s[0] == '{';
    assert s[1..] == name + t;
    assert "" + [s[0]] == "{";
    assert ScanFrom(s, false, "") == ScanFrom(name + t, true, "{");
    CollectName(name, t, "{");
    assert t[0] == '}' && t[1..] == rest;
    assert ("{" + name) + [t[0]] == "{" + name + "}";
    assert ScanFrom(t, true, "{" + name) == [("{" + name) + [t[0]]] + ScanFrom(rest, false, "");
  }

  /** A template of non-nested `{name}` placeholders yields exactly those placeholders, in order. */
  lemma {:induction false} ScanFindsPlaceholders(segments: seq<Segment>)
    requires NonNested(segments)
    ensures Closed(Render(segments)) == Placeholders(segments)
    ensures Count(Render(segments), '{') == |Placeholders(segments)|
  {
    if segments != [] {
      var tail := segments[1..];
      assert NonNested(tail) by {
        forall k | 0 <= k < |tail|
          ensures BraceFree(if tail[k].Text? then tail[k].text else tail[k].name)
        {
          assert tail[k] == segments[k + 1];
        }
      }
      ScanFindsPlaceholders(tail);
      assert BraceFree(if segments[0].Text? then segments[0].text else segments[0].name);
      match segments[0]
      case Text(t) =>
        SkipText(t, Render(tail));
        CountAppend(t, Render(tail), '{');
        assert Count(t, '{') == 0 by { CountAbsent(t, '{'); }
      case Placeholder(name) =>
        ScanOnePlaceholder(name, Render(tail));
        var p := "{" + name + "}";
        assert Render(segments) == p + Render(tail);
        CountAppend(p, Render(tail), '{');
        CountAppend("{" + name, "}", '{');
        CountAppend("{", name, '{');
        CountAbsent(name, '{');
    }
  }

  lemma {:induction false} CountAbsent(s: string, c: char)
    requires c !in s
    ensures Count(s, c) == 0
  {
    if s != [] {
      CountAbsent(s[1..], c);
    }
  }

  /** On a template of non-nested placeholders the scanner does not fail and fills every slot with a placeholder. */
  lemma ScannedTemplate(segments: seq<Segment>)
    requires NonNested(segments)
    ensures Count(Render(segments), '}') <= Count(Render(segments), '{')
    ensures Padded(Closed(Render(segments)), Count(Render(segments), '{')) == Placeholders(segments)
  {
    ScanFindsPlaceholders(segments);
    ScanFromLength(Render(segments), false, "");
  }
}
