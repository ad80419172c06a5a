/**
 /config.js: the Helm runner image travels through JSON, inside JavaScript, inside a single-quoted
 nginx string, and must come out as it went in or not at all (internal/controller/helm_runner.go and
 uiNginxStatic in internal/controller/ui_reconciler.go).
 */
module ConfigJs {
  import opened Options
  import opened Json

  const GLOBAL := "window.__OPENSHIFTPULSE_CONFIG__"

  /** What ends, escapes or interpolates inside a single-quoted nginx string. */
  predicate IsNginxUnsafe(c: char) { c == '\'' || c == '\\' || c == '$' }

  predicate ContainsUnsafe(s: string) { exists c <- s :: IsNginxUnsafe(c) }

  /** The config as json.Marshal sees it: an empty image leaves out the whole helmInstall object. */
  function Config(image: string): Value {
    if image == "" then Obj(Nil)
    else Nested("helmInstall", "runnerImage", image)
  }

  function Nested(outer: string, inner: string, text: string): Value {
    Obj(Field(outer, Obj(Field(inner, Str(text), Nil)), Nil))
  }

  function UiRuntimeConfigJS(image: string): string {
    var empty := GLOBAL + "={};";
    var raw := Print(Config(image));
    if ContainsUnsafe(raw) then empty else GLOBAL + "=" + raw + ";"
  }

  // ----- The readers: nginx, then the browser -----

  predicate IsVariableChar(c: char) { 'a' <= c <= 'z' || 'A' <= c <= 'Z' || '0' <= c <= '9' || c == '_' }

  function VariableName(s: string): string {
    if s != "" && IsVariableChar(s[0]) then [s[0]] + VariableName(s[1..]) else ""
  }

  /**
   The text of a single-quoted nginx string whose opening quote has been read, variables still in it. A
   backslash not before a quote, a backslash, t, r or n stands for itself.
   */
  function ReadQuoted(s: string): Option<Read<string>>
    decreases |s|
  {
    if s == "" then None
    else if s[0] == '\'' then Some(Read("", s[1..]))
    else if s[0] == '\\' then
      if |s| < 2 then None
      else
        var c := s[1];
        var text := match c
          case '\'' => "'" case '\"' => "\"" case '\\' => "\\"
          case 't' => "\t" case 'r' => "\r" case 'n' => "\n"
          case _ => ['\\', c];
        Then(text, ReadQuoted(s[2..]))
    else Then([s[0]], ReadQuoted(s[1..]))
  }

  function Then(text: string, more: Option<Read<string>>): Option<Read<string>> {
    if more.None? then None else Some(Read(text + more.value.value, more.value.rest))
  }

  /** What `return` sends: $name and ${name} give way to what `vars` has; any other $ is an error. */
  function Interpolated(s: string, vars: string -> string): Option<string>
    decreases |s|
  {
    if s == "" then Some("")
    else if s[0] != '$' then After([s[0]], Interpolated(s[1..], vars))
    else
      var braced := |s| > 1 && s[1] == '{';
      var from := if braced then 2 else 1;
      var name := VariableName(s[from..]);
      VariableNameFits(s[from..]);
      var end := from + |name|;
      if name == "" || (braced && (end == |s| || s[end] != '}')) then None
      else After(vars(name), Interpolated(s[if braced then end + 1 else end..], vars))
  }

  function After(text: string, more: Option<string>): Option<string> {
    if more.None? then None else Some(text + more.value)
  }

  /** nginx reads the string first, and replaces variables in what it has read. */
  function ReadNginx(s: string, vars: string -> string): Option<Read<string>> {
    var quoted := ReadQuoted(s);
    if quoted.None? then None
    else
      var text := Interpolated(quoted.value.value, vars);
      if text.None? then None else Some(Read(text.value, quoted.value.rest))
  }

  lemma VariableNameFits(s: string)
    ensures |VariableName(s)| <= |s|
  {
  }

  /** The image a config object sets, "" when it sets none; None when it is no such object. */
  function ImageOf(v: Value): Option<string> {
    match v
    case Obj(Nil) => Some("")
    case Obj(Field("helmInstall", Obj(Field("runnerImage", Str(image), Nil)), Nil)) => Some(image)
    case _ => None
  }

  /** The assignment statement that sets the global; nothing may follow its semicolon. */
  function ReadScript(body: string): Option<string> {
    var head := GLOBAL + "=";
    if |body| <= |head| || body[..|head|] != head then None
    else
      var v := ReadValue(body[|head|..]);
      if v.Some? && v.value.rest == ";" then ImageOf(v.value.value) else None
  }

  // ----- Nothing unsafe is served, and what is served is the image -----

  predicate IsServableChar(c: char) { IsPlain(c) && c != '\'' && c != '$' }

  predicate Servable(image: string) { forall c <- image :: IsServableChar(c) }

  /** Control characters, the two quotes, the backslash, the dollar sign, and what HTML or JavaScript could trip over. */
  lemma ServableIff(image: string)
    ensures Servable(image) <==>
      forall i | 0 <= i < |image| :: image[i] >= ' ' && image[i] !in ['\"', '\'', '\\', '$', '<', '>', '&', '\U{2028}', '\U{2029}']
  {
    if Servable(image) {
      forall i | 0 <= i < |image| ensures IsServableChar(image[i]) {
        assert image[i] in image;
      }
    }
  }

  lemma UnsafeOfConcat(s: string, t: string)
    ensures ContainsUnsafe(s + t) <==> ContainsUnsafe(s) || ContainsUnsafe(t)
  {
    if c :| c in s && IsNginxUnsafe(c) {
      assert c in s + t;
    }
    if c :| c in t && IsNginxUnsafe(c) {
      assert c in s + t;
    }
  }

  lemma EscapeIsSafeIff(c: char)
    ensures ContainsUnsafe(Escape(c)) <==> !IsServableChar(c)
  {
    assert Escape(c)[0] in Escape(c);
    assert IsPlain(c) ==> Escape(c) == [c];
  }

  lemma {:induction false} EscapedIsSafeIff(s: string)
    ensures ContainsUnsafe(Escaped(s)) <==> !Servable(s)
  {
    if s != "" {
      EscapeIsSafeIff(s[0]);
      EscapedIsSafeIff(s[1..]);
      UnsafeOfConcat(Escape(s[0]), Escaped(s[1..]));
      assert forall c :: c in s <==> c == s[0] || c in s[1..];
    }
  }

  /** Every name and every text in the value is servable. */
  predicate AllServable(v: Value) {
    match v
    case Str(text) => Servable(text)
    case Obj(fs) => AllFieldsServable(fs)
  }

  predicate AllFieldsServable(fs: Fields) {
    fs.Field? ==> Servable(fs.name) && AllServable(fs.value) && AllFieldsServable(fs.more)
  }

  lemma {:induction false} PrintIsSafeIff(v: Value)
    ensures ContainsUnsafe(Print(v)) <==> !AllServable(v)
    decreases v
  {
    match v
    case Str(text) =>
      EscapedIsSafeIff(text);
      UnsafeOfConcat("\"", Escaped(text));
      UnsafeOfConcat("\"" + Escaped(text), "\"");
    case Obj(fs) =>
      PrintFieldsIsSafeIff(fs);
      UnsafeOfConcat("{", PrintFields(fs));
      UnsafeOfConcat("{" + PrintFields(fs), "}");
  }

  lemma {:induction false} PrintFieldsIsSafeIff(fs: Fields)
    ensures ContainsUnsafe(PrintFields(fs)) <==> !AllFieldsServable(fs)
    decreases fs
  {
    if fs.Field? {
      EscapedIsSafeIff(fs.name);
      PrintIsSafeIff(fs.value);
      PrintFieldsIsSafeIff(fs.more);
      var name, value := Escaped(fs.name), Print(fs.value);
      var more := if fs.more.Nil? then "" else "," + PrintFields(fs.more);
      UnsafeOfConcat("\"", name);
      UnsafeOfConcat("\"" + name, "\":");
      UnsafeOfConcat("\"" + name + "\":", value);
      UnsafeOfConcat("\"" + name + "\":" + value, more);
      UnsafeOfConcat(",", PrintFields(fs.more));
    }
  }

  lemma NestedIsSafeIff(outer: string, inner: string, text: string)
    requires Servable(outer) && Servable(inner)
    ensures ContainsUnsafe(Print(Nested(outer, inner, text))) <==> !Servable(text)
  {
    PrintIsSafeIff(Nested(outer, inner, text));
    var nested := Obj(Field(inner, Str(text), Nil));
    assert AllServable(nested) <==> Servable(text) by {
      assert AllFieldsServable(nested.fields) <==> AllServable(Str(text)) && AllFieldsServable(Nil);
    }
    assert AllFieldsServable(Field(outer, nested, Nil)) <==> AllServable(nested) && AllFieldsServable(Nil);
  }

  lemma NamesAreServable()
    ensures Servable("helmInstall") && Servable("runnerImage")
  {
  }

  /** Exactly the images that are served: those JSON writes as they stand and nginx reads so. */
  lemma ServedIff(image: string)
    ensures ContainsUnsafe(Print(Config(image))) <==> !Servable(image)
  {
    if image == "" {
      PrintIsSafeIff(Obj(Nil));
    } else {
      NamesAreServable();
      NestedIsSafeIff("helmInstall", "runnerImage", image);
    }
  }

  lemma GlobalIsSafe()
    ensures !ContainsUnsafe(GLOBAL)
  {
  }

  /** No image puts a quote, a backslash or a dollar sign into the body. */
  lemma BodyIsAlwaysSafe(image: string)
    ensures !ContainsUnsafe(UiRuntimeConfigJS(image))
  {
    var raw := Print(Config(image));
    GlobalIsSafe();
    UnsafeOfConcat(GLOBAL, "={};");
    UnsafeOfConcat(GLOBAL, "=");
    UnsafeOfConcat(GLOBAL + "=", raw);
    UnsafeOfConcat(GLOBAL + "=" + raw, ";");
  }

  lemma {:induction false} QuotedVerbatim(body: string, rest: string)
    requires !ContainsUnsafe(body)
    ensures ReadQuoted(body + "'" + rest) == Some(Read(body, rest))
  {
    var all := body + "'" + rest;
    if body == "" {
      assert all == "'" + rest;
      assert all[1..] == rest;
    } else {
      assert body[0] in body && forall c :: c in body[1..] ==> c in body;
      assert all[0] == body[0] && all[1..] == body[1..] + "'" + rest;
      QuotedVerbatim(body[1..], rest);
      assert body == [body[0]] + body[1..];
    }
  }

  lemma {:induction false} NothingToInterpolate(body: string, vars: string -> string)
    requires !ContainsUnsafe(body)
    ensures Interpolated(body, vars) == Some(body)
  {
    if body != "" {
      assert body[0] in body && forall c :: c in body[1..] ==> c in body;
      NothingToInterpolate(body[1..], vars);
      assert body == [body[0]] + body[1..];
    }
  }

  /** A body without the three characters is read by nginx as it stands, whatever the variables are. */
  lemma NginxReadsVerbatim(body: string, rest: string, vars: string -> string)
    requires !ContainsUnsafe(body)
    ensures ReadNginx(body + "'" + rest, vars) == Some(Read(body, rest))
  {
    QuotedVerbatim(body, rest);
    NothingToInterpolate(body, vars);
  }

  lemma HeadOff(head: string, text: string, end: string)
    ensures var body := head + text + end;
      |body| >= |head| && body[..|head|] == head && body[|head|..] == text + end
  {
  }

  lemma ScriptRoundTrip(v: Value)
    ensures ReadScript(GLOBAL + "=" + Print(v) + ";") == ImageOf(v)
  {
    HeadOff(GLOBAL + "=", Print(v), ";");
    ValueRoundTrip(v, ";");
  }

  lemma BodyRoundTrip(image: string)
    ensures ReadScript(UiRuntimeConfigJS(image)) == Some(if Servable(image) then image else "")
  {
    ServedIff(image);
    if Servable(image) {
      ScriptRoundTrip(Config(image));
    } else {
      ScriptRoundTrip(Obj(Nil));
      EmptyBody();
    }
  }

  lemma EmptyBody()
    ensures GLOBAL + "=" + Print(Obj(Nil)) + ";" == GLOBAL + "={};"
  {
    assert Print(Obj(Nil)) == "{}";
    assert "=" + "{}" + ";" == "={};";
    Assoc(GLOBAL, "=", "{}", ";");
  }

  lemma Assoc(a: string, b: string, c: string, d: string)
    ensures a + b + c + d == a + (b + c + d)
  {
  }

  /**
   For every image string, what nginx serves and the browser evaluates is exactly that image when it
   is servable, and the empty config when it is not; the nginx string ends where it was meant to.
   */
  lemma ImageRoundTrip(image: string, rest: string, vars: string -> string)
    ensures var served := ReadNginx(UiRuntimeConfigJS(image) + "'" + rest, vars);
      && served.Some? && served.value.rest == rest
      && ReadScript(served.value.value) == Some(if Servable(image) then image else "")
  {
    BodyIsAlwaysSafe(image);
    NginxReadsVerbatim(UiRuntimeConfigJS(image), rest, vars);
    BodyRoundTrip(image);
  }

  // ----- Which image that is -----

  predicate IsLowerHex(c: char) { '0' <= c <= '9' || 'a' <= c <= 'f' }

  predicate IsAlphanumeric(c: char) { 'A' <= c <= 'Z' || 'a' <= c <= 'z' || '0' <= c <= '9' }

  predicate IsRepositoryChar(c: char) { IsAlphanumeric(c) || c == '.' || c == '_' || c == '/' || c == ':' || c == '-' }

  /** ^[A-Za-z0-9][A-Za-z0-9._/:-]*@sha256:[a-f0-9]{64}$ */
  predicate IsDigestPinned(image: string) {
    && |image| >= 73
    && IsAlphanumeric(image[0])
    && (forall c <- image[1..|image| - 72] :: IsAlphanumeric(c) || c in "._/:-")
    && image[|image| - 72..|image| - 64] == "@sha256:"
    && (forall c <- image[|image| - 64..] :: IsLowerHex(c))
  }

  /** A repository, which begins with a letter or digit, and a sha256 digest of 64 lower-case digits. */
  predicate IsRepository(s: string) { s != "" && IsAlphanumeric(s[0]) && forall i | 1 <= i < |s| :: IsRepositoryChar(s[i]) }

  predicate IsDigest(s: string) { |s| == 64 && forall i | 0 <= i < 64 :: IsLowerHex(s[i]) }

  /** What the pattern says: exactly the texts made of these three parts. */
  lemma PinnedIff(image: string)
    ensures IsDigestPinned(image) <==>
      exists repository, digest :: IsRepository(repository) && IsDigest(digest) && image == repository + "@sha256:" + digest
  {
    var n := |image|;
    if IsDigestPinned(image) {
      var repository, digest := image[..n - 72], image[n - 64..];
      forall i | 1 <= i < |repository| ensures IsRepositoryChar(repository[i]) {
        assert image[1..n - 72][i - 1] == repository[i];
      }
      assert repository[0] == image[0] && IsRepository(repository);
      assert IsDigest(digest) by {
        assert forall i | 0 <= i < 64 :: digest[i] in image[n - 64..];
      }
      assert image == repository + image[n - 72..n - 64] + digest;
      assert image == repository + "@sha256:" + digest;
    }
    if repository, digest :| IsRepository(repository) && IsDigest(digest) && image == repository + "@sha256:" + digest {
      PartsArePinned(image, repository, digest);
    }
  }

  lemma PartsArePinned(image: string, repository: string, digest: string)
    requires IsRepository(repository) && IsDigest(digest) && image == repository + "@sha256:" + digest
    ensures IsDigestPinned(image)
  {
    var n := |image|;
    assert n == |repository| + 72;
    assert image[n - 72..n - 64] == "@sha256:" && image[n - 64..] == digest;
    assert image[1..n - 72] == repository[1..];
  }

  datatype Setting = NotSet | NotDigestPinned | Pinned(image: string)

  function ResolveHelmRunner(fromCr: string, fromEnv: string): Setting {
    var image := if fromCr == "" then fromEnv else fromCr;
    if image == "" then NotSet
    else if !IsDigestPinned(image) then NotDigestPinned
    else Pinned(image)
  }

  function Body(s: Setting): string { UiRuntimeConfigJS(if s.Pinned? then s.image else "") }

  lemma PinnedIsServable(image: string)
    requires IsDigestPinned(image)
    ensures Servable(image)
  {
    var n := |image|;
    forall i | 0 <= i < n ensures IsServableChar(image[i]) {
      if 1 <= i < n - 72 {
        assert image[1..n - 72][i - 1] == image[i];
        assert IsRepositoryChar(image[i]);
      } else if n - 72 <= i < n - 64 {
        assert image[n - 72..n - 64][i - (n - 72)] == image[i];
      } else if i >= n - 64 {
        assert image[n - 64..][i - (n - 64)] == image[i];
        assert IsLowerHex(image[i]);
      }
    }
  }

  /** The CR's image or none: a CR value the pattern refuses is never replaced by the release's. */
  lemma UiRunsTheChosenImageOrNone(fromCr: string, fromEnv: string, rest: string, vars: string -> string)
    ensures var chosen := if fromCr == "" then fromEnv else fromCr;
      var served := ReadNginx(Body(ResolveHelmRunner(fromCr, fromEnv)) + "'" + rest, vars);
      && served.Some? && served.value.rest == rest
      && ReadScript(served.value.value) == Some(if IsDigestPinned(chosen) then chosen else "")
  {
    var setting := ResolveHelmRunner(fromCr, fromEnv);
    var image := if setting.Pinned? then setting.image else "";
    ImageRoundTrip(image, rest, vars);
    if image != "" {
      PinnedIsServable(image);
    }
  }
}
