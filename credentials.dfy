/** Reading the storage connection string from a `.env` file, the same way in
    all three scripts: the first line that starts with the variable's name,
    the text after its first `=`, stripped of whitespace, then of every
    surrounding `"`, then of every surrounding `'`. */
module Credentials {
  import opened Wrappers
  import opened Text

  const CredentialName := "AZURE_STORAGE_CONNECTION_STRING"

  /** `MissingSeparator` is the `IndexError` of `split('=', 1)[1]` on a
      matching line without `=`; `NotFound` is "connection string not found"
      (`ValueError` in the downloader class, exit status 1 in the CLIs). */
  datatype CredentialError = MissingSeparator | NotFound

  /** `line.strip() and line.startswith('AZURE_STORAGE_CONNECTION_STRING')` */
  predicate IsCredentialLine(line: string): (b: bool)
    ensures b <==> StartsWith(line, CredentialName)
  {
    PrefixedLineIsNotBlank(line);
    Strip(line) != [] && StartsWith(line, CredentialName)
  }

  /** The blank-line test in front of the name test never decides anything:
      a line that starts with the name is not blank. */
  lemma PrefixedLineIsNotBlank(line: string)
    ensures StartsWith(line, CredentialName) ==> Strip(line) != []
  {
    if StartsWith(line, CredentialName) {
      assert line[0] == 'A' && !IsSpace('A');
    }
  }

  /** `line.split('=', 1)[1].strip().strip('"').strip("'")` */
  function ParseCredentialLine(line: string): (r: Result<string, CredentialError>)
    ensures r.Err? <==> '=' !in line
    ensures r.Err? ==> r.error == MissingSeparator
    ensures r.Ok? && r.value != [] ==> r.value[0] != '\'' && r.value[|r.value| - 1] != '\''
  {
    match AfterFirst(line, '=')
    case None => Err(MissingSeparator)
    case Some(v) => Ok(StripChar(StripChar(Strip(v), '"'), '\''))
  }

  /** Trimming the front of `a + rest` removes exactly `a` when `a` is all
      dropped characters and `rest` does not start with one. */
  lemma {:induction false} TrimLeftExact(a: string, rest: string, drop: char -> bool)
    requires forall k :: 0 <= k < |a| ==> drop(a[k])
    requires rest != [] ==> !drop(rest[0])
    ensures TrimLeft(a + rest, drop) == rest
  {
    if a == [] {
      assert a + rest == rest;
    } else {
      assert (a + rest)[1..] == a[1..] + rest;
      TrimLeftExact(a[1..], rest, drop);
    }
  }

  /** Trimming the back of `m + b` removes exactly `b` when `b` is all
      dropped characters and `m` does not end with one. */
  lemma {:induction false} TrimRightExact(m: string, b: string, drop: char -> bool)
    requires forall k :: 0 <= k < |b| ==> drop(b[k])
    requires m != [] ==> !drop(m[|m| - 1])
    ensures TrimRight(m + b, drop) == m
  {
    if b == [] {
      assert m + b == m;
    } else {
      assert (m + b)[..|m + b| - 1] == m + b[..|b| - 1];
      TrimRightExact(m, b[..|b| - 1], drop);
    }
  }

  /** `StripWhere` keeps exactly the middle of `a + m + b` when `a` and `b`
      are all dropped characters and `m` neither starts nor ends with one. */
  lemma StripWhereExact(a: string, m: string, b: string, drop: char -> bool)
    requires forall k :: 0 <= k < |a| ==> drop(a[k])
    requires forall k :: 0 <= k < |b| ==> drop(b[k])
    requires m != [] ==> !drop(m[0]) && !drop(m[|m| - 1])
    ensures StripWhere(a + m + b, drop) == m
  {
    assert a + m + b == a + (m + b);
    if m == [] {
      assert m + b == b;
      var left := TrimLeft(a + b, drop);
      assert forall k :: 0 <= k < |a + b| ==> drop((a + b)[k]);
      assert left == [];
    } else {
      TrimLeftExact(a, m + b, drop);
      TrimRightExact(m, b, drop);
    }
  }

  /** The variable's name holds no `=`, so the first `=` of a line
      `NAME=rest` is the one right after the name. */
  lemma AfterName(rest: string)
    ensures AfterFirst(CredentialName + "=" + rest, '=') == Some(rest)
  {
    var line := CredentialName + "=" + rest;
    var n := |CredentialName|;
    assert line[n] == '=';
    assert forall k :: 0 <= k < n ==> line[k] == CredentialName[k];
    assert '=' !in CredentialName;
    var j := FirstIndexOf(line, '=').value;
    assert line[n + 1..] == rest;
  }

  /** Stripping every surrounding copy of `c` from `c + m + c`, or from `m`
      alone, leaves `m` when `m` neither starts nor ends with `c`. */
  lemma UnquoteExact(m: string, c: char, quoted: bool)
    requires m != [] ==> m[0] != c && m[|m| - 1] != c
    ensures StripChar(if quoted then [c] + m + [c] else m, c) == m
  {
    if quoted {
      StripWhereExact([c], m, [c], IsChar(c));
    } else {
      StripWhereExact([], m, [], IsChar(c));
      assert [] + m + [] == m;
    }
  }

  /** Writing a value into the file as `NAME="value"` (or `NAME=value`) on a
      line of its own and parsing that line gives the value back, also when
      the value itself holds `=` characters, as connection strings do. */
  lemma ParseWrittenLine(v: string, quoted: bool)
    requires v != [] ==> v[0] !in {'"', '\''} && v[|v| - 1] !in {'"', '\''}
    requires !quoted && v != [] ==> !IsSpace(v[0]) && !IsSpace(v[|v| - 1])
    ensures ParseCredentialLine(CredentialName + "=" + (if quoted then "\"" + v + "\"" else v) + "\n") == Ok(v)
  {
    var body := if quoted then ['"'] + v + ['"'] else v;
    var line := CredentialName + "=" + (body + "\n");
    assert line == CredentialName + "=" + (if quoted then "\"" + v + "\"" else v) + "\n";
    AfterName(body + "\n");
    UnwrapValue(v, quoted);
  }

  /** The value part of a written line, with its line break, strips back to
      the value. */
  lemma UnwrapValue(v: string, quoted: bool)
    requires v != [] ==> v[0] !in {'"', '\''} && v[|v| - 1] !in {'"', '\''}
    requires !quoted && v != [] ==> !IsSpace(v[0]) && !IsSpace(v[|v| - 1])
    ensures var body := if quoted then ['"'] + v + ['"'] else v;
            StripChar(StripChar(Strip(body + "\n"), '"'), '\'') == v
  {
    var body := if quoted then ['"'] + v + ['"'] else v;
    assert Strip(body + "\n") == body by {
      StripWhereExact([], body, "\n", IsSpace);
      assert [] + body + "\n" == body + "\n";
    }
    assert StripChar(body, '"') == v by {
      UnquoteExact(v, '"', quoted);
    }
    assert StripChar(v, '\'') == v by {
      UnquoteExact(v, '\'', false);
    }
  }

  /** The value the `for line in f` loop settles on: `None` when no line
      matches, else the parse of the first matching line. */
  function EnvFileValue(lines: seq<string>): (r: Result<Option<string>, CredentialError>)
    ensures r == Ok(None) <==> forall k :: 0 <= k < |lines| ==> !IsCredentialLine(lines[k])
  {
    if lines == [] then Ok(None)
    else if IsCredentialLine(lines[0]) then LineValue(lines[0])
    else
      assert forall k :: 1 <= k < |lines| ==> lines[k] == lines[1..][k - 1];
      EnvFileValue(lines[1..])
  }

  /** What the loop returns when it stops at `line`: the parsed value, or the
      parse error. */
  function LineValue(line: string): Result<Option<string>, CredentialError> {
    match ParseCredentialLine(line)
    case Err(e) => Err(e)
    case Ok(v) => Ok(Some(v))
  }

  /** The file's value comes from its first credential line, whatever the
      lines after it hold. */
  lemma {:induction false} EnvFileValueFirst(lines: seq<string>, k: nat)
    requires k < |lines| && IsCredentialLine(lines[k])
    requires forall j :: 0 <= j < k ==> !IsCredentialLine(lines[j])
    ensures EnvFileValue(lines) == LineValue(lines[k])
  {
    if k > 0 {
      var rest := lines[1..];
      assert !IsCredentialLine(lines[0]);
      assert EnvFileValue(lines) == EnvFileValue(rest);
      assert rest[k - 1] == lines[k];
      forall j | 0 <= j < k - 1
        ensures !IsCredentialLine(rest[j])
      {
        assert rest[j] == lines[j + 1];
      }
      EnvFileValueFirst(rest, k - 1);
    }
  }

  /** The loop over the lines of the `.env` file, breaking at the first match. */
  method ScanEnvFile(lines: seq<string>) returns (r: Result<Option<string>, CredentialError>)
    ensures r == EnvFileValue(lines)
  {
    var i := 0;
    while i < |lines|
      invariant 0 <= i <= |lines|
      invariant EnvFileValue(lines[i..]) == EnvFileValue(lines)
    {
      var line := lines[i];
      if Strip(line) != [] && StartsWith(line, CredentialName) {
        var parsed := ParseCredentialLine(line);
        if parsed.Err? {
          return Err(parsed.error);
        }
        return Ok(Some(parsed.value));
      }
      assert lines[i..][1..] == lines[i + 1..];
      i := i + 1;
    }
    return Ok(None);
  }

  /** Connection-string precedence: an explicit argument, then the
      environment variable, then the `.env` file; each step is taken only
      when the one before gave nothing truthy. The command-line scripts use
      the same rule with no environment-variable step (`envVar == None`). */
  function ResolveConnectionString(arg: Option<string>, envVar: Option<string>, envFile: Option<seq<string>>)
    : (r: Result<string, CredentialError>)
    ensures r.Ok? ==> r.value != []
    ensures Truthy(arg) ==> r == Ok(arg.value)
    ensures !Truthy(arg) && Truthy(envVar) ==> r == Ok(envVar.value)
    ensures !Truthy(arg) && !Truthy(envVar) && envFile.None? ==> r == Err(NotFound)
    ensures !Truthy(arg) && !Truthy(envVar) && envFile.Some? ==>
              (r.Ok? <==> EnvFileValue(envFile.value).Ok? && Truthy(EnvFileValue(envFile.value).value))
    ensures !Truthy(arg) && !Truthy(envVar) && envFile.Some? && r.Ok? ==> EnvFileValue(envFile.value) == Ok(Some(r.value))
    ensures !Truthy(arg) && !Truthy(envVar) && envFile.Some? && EnvFileValue(envFile.value).Err? ==>
              r == Err(EnvFileValue(envFile.value).error)
    ensures (!Truthy(arg) && !Truthy(envVar) && envFile.Some? && EnvFileValue(envFile.value).Ok?
             && !Truthy(EnvFileValue(envFile.value).value)) ==> r == Err(NotFound)
  {
    if Truthy(arg) then Ok(arg.value)
    else if Truthy(envVar) then Ok(envVar.value)
    else if envFile.None? then Err(NotFound)
    else match EnvFileValue(envFile.value)
      case Err(e) => Err(e)
      case Ok(found) => if Truthy(found) then Ok(found.value) else Err(NotFound)
  }

  /** The whole lookup: the argument, then the environment variable, then a
      scan of the `.env` file's lines when the file exists. */
  method LoadConnectionString(arg: Option<string>, envVar: Option<string>, envFile: Option<seq<string>>)
    returns (r: Result<string, CredentialError>)
    ensures r == ResolveConnectionString(arg, envVar, envFile)
  {
    if Truthy(arg) {
      return Ok(arg.value);
    }
    if Truthy(envVar) {
      return Ok(envVar.value);
    }
    if envFile.None? {
      return Err(NotFound);
    }
    var found := ScanEnvFile(envFile.value);
    if found.Err? {
      return Err(found.error);
    }
    if !Truthy(found.value) {
      return Err(NotFound);
    }
    r := Ok(found.value.value);
  }
}
