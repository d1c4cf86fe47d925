/**
 * `extract_version_from_cargo_toml`: the version string of a manifest, taken
 * from the first line that starts with `version` and holds a double quote.
 * The file is given as its lines.
 */
module CargoVersion {
  import opened Effects
  import opened Text

  const VERSION_KEY := "version"

  /** `s.split(c)`: the pieces between occurrences of `c` (always at least one). */
  function Split(s: string, c: char): (pieces: seq<string>)
    ensures |pieces| >= 1
    ensures forall i :: 0 <= i < |pieces| ==> c !in pieces[i]
    ensures Join(pieces, [c]) == s
  {
    if s == [] then [""]
    else if s[0] == c then
      var tail := Split(s[1..], c);
      [""] + tail
    else
      var tail := Split(s[1..], c);
      assert Join(tail, [c]) == tail[0] + Join(tail, [c])[|tail[0]|..] by {
        if |tail| > 1 {
          assert Join(tail, [c]) == tail[0] + ([c] + Join(tail[1..], [c]));
        }
      }
      [[s[0]] + tail[0]] + tail[1..]
  }

  /** `rest.split('"').nth(1)`: the text after the first quote, up to the next quote or the end. */
  function QuotedField(rest: string): Option<string>
  {
    var pieces := Split(rest, '"');
    if |pieces| > 1 then Some(pieces[1]) else None
  }

  /** `line.strip_prefix("version")`: the rest of the line when it begins with `version`. */
  function StripVersion(line: string): Option<string>
  {
    if |line| >= |VERSION_KEY| && line[..|VERSION_KEY|] == VERSION_KEY
    then Some(line[|VERSION_KEY|..])
    else None
  }

  /** The version a single line supplies, if it supplies one. */
  function LineVersion(line: string): Option<string>
  {
    match StripVersion(line)
    case None => None
    case Some(rest) => QuotedField(rest)
  }

  /** A line the parser accepts: it begins with `version` and holds a double quote after it. */
  predicate Qualifies(line: string)
  {
    StripVersion(line).Some? && '"' in StripVersion(line).value
  }

  /** The version of the first line that supplies one. */
  function VersionOf(lines: seq<string>): Option<string>
  {
    if lines == [] then None
    else if LineVersion(lines[0]).Some? then LineVersion(lines[0])
    else VersionOf(lines[1..])
  }

  /** `s` is a quote-free `a`, a quote, a quote-free `v`, then the end or another quote. */
  predicate FieldLayout(s: string, a: string, v: string, b: string)
  {
    s == a + ['"'] + v + b && '"' !in a && '"' !in v && (b == [] || b[0] == '"')
  }

  /**
   * The field taken from a line is the text between its first quote and the
   * next quote (or the end of the line); there is none exactly when the
   * line holds no quote.
   */
  lemma QuotedFieldMeaning(rest: string)
    ensures QuotedField(rest).None? <==> '"' !in rest
    ensures QuotedField(rest).Some? ==> exists a, b :: FieldLayout(rest, a, QuotedField(rest).value, b)
  {
    var p := Split(rest, '"');
    if |p| == 1 {
      assert rest == p[0];
    } else {
      var a, v := p[0], p[1];
      var b := if |p| > 2 then ['"'] + Join(p[2..], ['"']) else "";
      JoinSecondPiece(p, ['"']);
      assert rest == a + ['"'] + v + b;
      assert rest[|a|] == '"';
      assert QuotedField(rest) == Some(v);
      assert FieldLayout(rest, a, QuotedField(rest).value, b);
    }
  }

  lemma JoinSecondPiece(p: seq<string>, sep: string)
    requires |p| > 1
    ensures Join(p, sep) == p[0] + sep + p[1] + (if |p| > 2 then sep + Join(p[2..], sep) else "")
  {
    assert Join(p, sep) == p[0] + sep + Join(p[1..], sep);
    if |p| > 2 {
      assert p[1..][1..] == p[2..];
      assert Join(p[1..], sep) == p[1] + sep + Join(p[2..], sep);
    }
  }

  /** Whatever surrounds it, a quoted field written after a quote-free prefix is the one read back. */
  lemma {:induction false} QuotedFieldOf(a: string, v: string, b: string)
    requires FieldLayout(a + ['"'] + v + b, a, v, b)
    ensures QuotedField(a + ['"'] + v + b) == Some(v)
  {
    var s := a + ['"'] + v + b;
    var p := Split(s, '"');
    if a == [] {
      assert s[1..] == v + b;
      SplitQuoteFree(v, b);
    } else {
      assert s[1..] == a[1..] + ['"'] + v + b;
      QuotedFieldOf(a[1..], v, b);
    }
  }

  lemma {:induction false} SplitQuoteFree(v: string, b: string)
    requires '"' !in v && (b == [] || b[0] == '"')
    ensures Split(v + b, '"')[0] == v
  {
    if v == [] {
      assert v + b == b;
    } else {
      assert (v + b)[1..] == v[1..] + b;
      SplitQuoteFree(v[1..], b);
    }
  }

  /** A line supplies a version exactly when it qualifies. */
  lemma LineVersionQualifies(line: string)
    ensures LineVersion(line).Some? <==> Qualifies(line)
  {
    if StripVersion(line).Some? {
      QuotedFieldMeaning(StripVersion(line).value);
    }
  }

  /**
   * The result is the field of the first qualifying line; no line qualifying
   * is the only way to get nothing.
   */
  lemma {:induction false} VersionOfMeaning(lines: seq<string>)
    ensures VersionOf(lines).None? <==> forall i :: 0 <= i < |lines| ==> !Qualifies(lines[i])
    ensures VersionOf(lines).Some? ==>
      exists k :: 0 <= k < |lines| && Qualifies(lines[k])
        && (forall j :: 0 <= j < k ==> !Qualifies(lines[j]))
        && LineVersion(lines[k]) == VersionOf(lines)
  {
    if lines != [] {
      LineVersionQualifies(lines[0]);
      VersionOfMeaning(lines[1..]);
      NoneQualifyShift(lines);
      if LineVersion(lines[0]).None? && VersionOf(lines).Some? {
        var k :| 0 <= k < |lines[1..]| && Qualifies(lines[1..][k])
          && (forall j :: 0 <= j < k ==> !Qualifies(lines[1..][j]))
          && LineVersion(lines[1..][k]) == VersionOf(lines[1..]);
        UnqualifiedShift(lines, k);
        assert lines[k + 1] == lines[1..][k];
      }
    }
  }

  lemma UnqualifiedShift(lines: seq<string>, k: nat)
    requires k + 1 < |lines| && !Qualifies(lines[0])
    requires forall j :: 0 <= j < k ==> !Qualifies(lines[1..][j])
    ensures forall j :: 0 <= j < k + 1 ==> !Qualifies(lines[j])
  {
    forall j | 0 < j < k + 1 ensures !Qualifies(lines[j]) {
      assert lines[j] == lines[1..][j - 1];
    }
  }

  /** No line qualifies exactly when the first does not and no later line does. */
  lemma NoneQualifyShift(lines: seq<string>)
    requires lines != []
    ensures (forall i :: 0 <= i < |lines| ==> !Qualifies(lines[i])) <==>
      !Qualifies(lines[0]) && forall i :: 0 <= i < |lines[1..]| ==> !Qualifies(lines[1..][i])
  {
    if !Qualifies(lines[0]) && forall i :: 0 <= i < |lines[1..]| ==> !Qualifies(lines[1..][i]) {
      forall i | 0 <= i < |lines| ensures !Qualifies(lines[i]) {
        if i > 0 {
          assert lines[i] == lines[1..][i - 1];
        }
      }
    }
  }

  /** Lines that do not qualify, placed in front, do not change the result. */
  lemma {:induction false} VersionOfSkipsUnqualified(pre: seq<string>, lines: seq<string>)
    requires forall i :: 0 <= i < |pre| ==> !Qualifies(pre[i])
    ensures VersionOf(pre + lines) == VersionOf(lines)
  {
    if pre != [] {
      LineVersionQualifies(pre[0]);
      assert !Qualifies(pre[0]);
      assert (pre + lines)[0] == pre[0];
      assert LineVersion((pre + lines)[0]).None?;
      assert (pre + lines)[1..] == pre[1..] + lines;
      assert forall i :: 0 <= i < |pre[1..]| ==> !Qualifies(pre[1..][i]) by {
        forall i | 0 <= i < |pre[1..]| ensures !Qualifies(pre[1..][i]) {
          assert pre[1..][i] == pre[i + 1];
        }
      }
      assert VersionOf(pre + lines) == VersionOf(pre[1..] + lines);
      VersionOfSkipsUnqualified(pre[1..], lines);
    } else {
      assert pre + lines == lines;
    }
  }

  /**
   * `extract_version_from_cargo_toml` over the manifest's lines: returns at the
   * first line that yields a version, and reports an error naming the path
   * when none does.
   */
  method ExtractVersionFromCargoToml(path: string, lines: seq<string>) returns (r: Result<string>)
    ensures VersionOf(lines).Some? ==> r == Ok(VersionOf(lines).value)
    ensures VersionOf(lines).None? ==> r == Err(NoVersion(path))
  {
    for i := 0 to |lines|
      invariant VersionOf(lines) == VersionOf(lines[i..])
    {
      assert lines[i..][1..] == lines[i + 1..];
      var line := lines[i];
      var stripped := StripVersion(line);
      if stripped.Some? {
        var ver := QuotedField(stripped.value);
        if ver.Some? {
          return Ok(ver.value);
        }
      }
    }
    return Err(NoVersion(path));
  }
}
