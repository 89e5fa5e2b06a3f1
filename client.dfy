/** The OpenClaw client of src/openclaw/client.js: its configuration
    defaults, `sendMessage` behind its token gate, and the digest that
    `sendDigest` formats and sends. The network is a parameter: `fetch` is a
    function from the request to the response or the error it rejects with. */
module Client {
  import opened Wrappers
  import opened Json
  import opened JsString

  /** A string setting from an options object or the environment: absent
      (`undefined`) or a string. */
  type Setting = Option<string>

  /** JavaScript truthiness of a setting. */
  predicate IsSet(s: Setting) {
    s.Some? && s.value != ""
  }

  /** `a || b` on settings. */
  function OrSetting(a: Setting, b: Setting): (r: Setting)
    ensures IsSet(a) ==> r == a
    ensures !IsSet(a) ==> r == b
  {
    if IsSet(a) then a else b
  }

  /** `a || d` for a string default `d`. */
  function OrString(a: Setting, d: string): (r: string)
    ensures IsSet(a) ==> r == a.value
    ensures !IsSet(a) ==> r == d
  {
    if IsSet(a) then a.value else d
  }

  datatype ClientOptions = ClientOptions(gatewayUrl: Setting, token: Setting, defaultChannel: Setting, defaultTarget: Setting)

  /** `OPENCLAW_URL` and `OPENCLAW_TOKEN`. */
  datatype Env = Env(openclawUrl: Setting, openclawToken: Setting)

  /** An `OpenClawClient` after its constructor. */
  datatype Client = Client(gatewayUrl: string, token: Setting, defaultChannel: string, defaultTarget: string)

  const DefaultGatewayUrl: string := "http://localhost:8080"
  const DefaultChannel: string := "telegram"
  const DefaultTarget: string := "8388779580"

  /** The constructor: each option, else the environment where there is one,
      else the built-in default (`'telegram'`, `'8388779580'` and
      `http://localhost:8080`); the token is the option's when it is set, else
      `OPENCLAW_TOKEN`, so there is one exactly when either is non-empty. */
  function NewClient(options: ClientOptions, env: Env): (c: Client)
    ensures !IsSet(options.defaultChannel) ==> c.defaultChannel == "telegram"
    ensures IsSet(options.defaultChannel) ==> c.defaultChannel == options.defaultChannel.value
    ensures !IsSet(options.defaultTarget) ==> c.defaultTarget == "8388779580"
    ensures IsSet(options.defaultTarget) ==> c.defaultTarget == options.defaultTarget.value
    ensures IsSet(options.gatewayUrl) ==> c.gatewayUrl == options.gatewayUrl.value
    ensures !IsSet(options.gatewayUrl) && IsSet(env.openclawUrl) ==> c.gatewayUrl == env.openclawUrl.value
    ensures !IsSet(options.gatewayUrl) && !IsSet(env.openclawUrl) ==> c.gatewayUrl == "http://localhost:8080"
    ensures IsSet(options.token) ==> c.token == options.token
    ensures !IsSet(options.token) ==> c.token == env.openclawToken
    ensures IsSet(c.token) <==> IsSet(options.token) || IsSet(env.openclawToken)
  {
    Client(
      OrString(options.gatewayUrl, OrString(env.openclawUrl, DefaultGatewayUrl)),
      OrSetting(options.token, env.openclawToken),
      OrString(options.defaultChannel, DefaultChannel),
      OrString(options.defaultTarget, DefaultTarget))
  }

  /** The options of one `sendMessage` call. */
  datatype SendOptions = SendOptions(channel: Setting, target: Setting)

  const NoSendOptions: SendOptions := SendOptions(None, None)

  datatype HttpRequest = HttpRequest(url: string, httpMethod: string, authorization: string, contentType: string, body: Serialized)

  /** What a resolved `fetch` gives: `ok`, `status`, `statusText`, and what
      `response.json()` resolves or rejects with. */
  datatype HttpResponse = HttpResponse(ok: bool, status: nat, statusText: string, json: Result<JsValue, string>)

  /** `fetch`: the response, or the message of the error it rejects with. */
  datatype Network = Network(fetch: HttpRequest -> Result<HttpResponse, string>)

  /** The requests a call made, and what it resolved with (`Ok`) or threw (`Err`). */
  datatype Delivery = Delivery(requests: seq<HttpRequest>, result: Result<JsValue, string>)

  function SkippedBody(): JsValue {
    Obj(map["skipped" := Bool(true)])
  }

  /** The POST `sendMessage` makes. */
  function MessageRequest(c: Client, channel: string, target: string, message: string): HttpRequest
    requires c.token.Some?
  {
    HttpRequest(
      c.gatewayUrl + "/api/v1/message/send", "POST", "Bearer " + c.token.value, "application/json",
      Stringify(Obj(map["channel" := Str(channel), "target" := Str(target), "message" := Str(message)])))
  }

  function HttpError(status: nat, statusText: string): string {
    "HTTP " + NatToString(status) + ": " + statusText
  }

  /** `sendMessage(message, options)`: with no token it resolves with
      `{ skipped: true }` and makes no request; with a token it makes exactly
      one. */
  function SendMessage(c: Client, message: string, options: SendOptions, net: Network): (d: Delivery)
    ensures !IsSet(c.token) <==> d.requests == []
    ensures !IsSet(c.token) ==> d.result == Ok(Obj(map["skipped" := Bool(true)]))
    ensures IsSet(c.token) ==> |d.requests| == 1
  {
    if !IsSet(c.token) then Delivery([], Ok(SkippedBody()))
    else
      var channel := OrString(options.channel, c.defaultChannel);
      var target := OrString(options.target, c.defaultTarget);
      var request := MessageRequest(c, channel, target, message);
      match net.fetch(request)
      case Err(e) => Delivery([request], Err(e))
      case Ok(response) =>
        if !response.ok then Delivery([request], Err(HttpError(response.status, response.statusText)))
        else Delivery([request], response.json)
  }

  // ---------------------------------------------------------------------
  // The digest
  // ---------------------------------------------------------------------

  const Title: string := "\U{1F9E0} Thought System Digest"
  /** The first line pushed, with its own trailing newline. */
  const Header: string := Title + "\n"
  const PreviewLength: nat := 100

  function Min(a: int, b: int): int { if a <= b then a else b }

  /** `content.substring(0, 100)`. */
  function Preview(content: string): string {
    content[..Min(PreviewLength, |content|)]
  }

  /** The line for the thought numbered `n`. */
  function Entry(n: nat, content: string): string {
    NatToString(n) + ". " + Preview(content) + (if |content| > PreviewLength then "..." else "")
  }

  /** One line per thought, numbered from 1 in input order. */
  function Entries(contents: seq<string>): (r: seq<string>)
    ensures |r| == |contents|
    ensures forall i :: 0 <= i < |contents| ==> r[i] == Entry(i + 1, contents[i])
  {
    seq(|contents|, i requires 0 <= i < |contents| => Entry(i + 1, contents[i]))
  }

  /** The text `_formatDigest` returns for thoughts with these contents. */
  function DigestText(contents: seq<string>): string {
    Join([Header] + Entries(contents), '\n')
  }

  /** `_formatDigest(thoughts)`: push the header, then one entry per thought,
      and join the lines with newlines. */
  method FormatDigest(contents: seq<string>) returns (text: string)
    ensures text == DigestText(contents)
  {
    var lines := [Header];
    for i := 0 to |contents|
      invariant lines == [Header] + Entries(contents[..i])
    {
      var content := contents[i];
      var preview := content[..Min(PreviewLength, |content|)];
      lines := lines + [NatToString(i + 1) + ". " + preview + (if |content| > PreviewLength then "..." else "")];
      assert Entries(contents[..i + 1]) == Entries(contents[..i]) + [Entry(i + 1, contents[i])];
    }
    assert contents[..|contents|] == contents;
    text := Join(lines, '\n');
  }

  /** `sendDigest(thoughts)`: nothing is formatted or sent for no thoughts. */
  method SendDigest(c: Client, contents: seq<string>, net: Network) returns (d: Delivery)
    ensures |contents| == 0 ==> d == Delivery([], Ok(Undefined))
    ensures |contents| > 0 ==> d == SendMessage(c, DigestText(contents), NoSendOptions, net)
  {
    if |contents| == 0 {
      return Delivery([], Ok(Undefined));
    }
    var message := FormatDigest(contents);
    d := SendMessage(c, message, NoSendOptions, net);
  }

  // ---------------------------------------------------------------------
  // What the client guarantees
  // ---------------------------------------------------------------------

  /** The one request goes to the gateway's send endpoint with the bearer
      token, and names the given channel and target, falling back to the
      client's defaults for missing or empty ones. */
  lemma RequestUsesDefaults(c: Client, message: string, options: SendOptions, net: Network)
    requires IsSet(c.token)
    ensures var d := SendMessage(c, message, options, net);
      var channel := if IsSet(options.channel) then options.channel.value else c.defaultChannel;
      var target := if IsSet(options.target) then options.target.value else c.defaultTarget;
      && d.requests == [HttpRequest(
           c.gatewayUrl + "/api/v1/message/send", "POST", "Bearer " + c.token.value, "application/json",
           Stringify(Obj(map["channel" := Str(channel), "target" := Str(target), "message" := Str(message)])))]
  {
  }

  /** A response that is not ok makes `sendMessage` throw `HTTP <status>:
      <statusText>`; a rejected fetch rethrows its error; an ok one resolves
      with the response's JSON. */
  lemma NonOkResponseThrows(c: Client, message: string, options: SendOptions, net: Network)
    requires IsSet(c.token)
    ensures var d := SendMessage(c, message, options, net);
      var reply := net.fetch(d.requests[0]);
      && (reply.Err? ==> d.result == Err(reply.error))
      && (reply.Ok? && !reply.value.ok ==> d.result.Err? && d.result.error == HttpError(reply.value.status, reply.value.statusText))
      && (reply.Ok? && reply.value.ok ==> d.result == reply.value.json)
  {
  }

  /** The status in the error message reads back as the response's status. */
  lemma HttpErrorShowsStatus(status: nat, statusText: string)
    ensures var m := HttpError(status, statusText);
      var digits := m[5..|m| - 2 - |statusText|];
      && m[..5] == "HTTP "
      && IsDigits(digits) && ParseNat(digits) == status
      && m[|m| - 2 - |statusText|..] == ": " + statusText
  {
    var m := HttpError(status, statusText);
    var n := NatToString(status);
    assert m == "HTTP " + n + ": " + statusText;
    assert m[5..|m| - 2 - |statusText|] == n;
    ParseNatToString(status);
  }

  /** Each entry shows the whole content when it has at most 100 characters,
      and otherwise its first 100 followed by `...`. */
  lemma EntryShowsPreview(n: nat, content: string)
    ensures var e := Entry(n, content);
      var k := |NatToString(n)|;
      && e[..k] == NatToString(n) && ParseNat(e[..k]) == n
      && e[k..k + 2] == ". "
      && (|content| <= 100 ==> e[k + 2..] == content)
      && (|content| > 100 ==> e[k + 2..] == content[..100] + "..." && |e| == k + 105)
  {
    ParseNatToString(n);
    var tail := Preview(content) + (if |content| > PreviewLength then "..." else "");
    EntryParts(NatToString(n), tail);
    if |content| <= 100 {
      assert tail == content;
    } else {
      assert tail == content[..100] + "...";
    }
  }

  /** The three parts of a numbered line. */
  lemma EntryParts(d: string, tail: string)
    ensures var e := d + ". " + tail;
      e[..|d|] == d && e[|d|..|d| + 2] == ". " && e[|d| + 2..] == tail
  {
    var e := d + ". " + tail;
    assert e == d + (". " + tail);
    assert e[|d|..] == ". " + tail;
  }

  /** `xs.join(sep)` after pushing one more item. */
  lemma {:induction false} JoinPush(xs: seq<string>, y: string, sep: char)
    requires |xs| >= 1
    ensures Join(xs + [y], sep) == Join(xs, sep) + [sep] + y
    decreases |xs|
  {
    if |xs| == 1 {
      assert (xs + [y])[1..] == [y];
    } else {
      JoinPush(xs[1..], y, sep);
      assert (xs + [y])[1..] == xs[1..] + [y];
    }
  }

  /** One more thought adds one more line, numbered after the others. */
  lemma DigestAppend(contents: seq<string>, content: string)
    ensures DigestText(contents + [content]) == DigestText(contents) + "\n" + Entry(|contents| + 1, content)
  {
    assert Entries(contents + [content]) == Entries(contents) + [Entry(|contents| + 1, content)];
    assert [Header] + Entries(contents + [content]) == ([Header] + Entries(contents)) + [Entry(|contents| + 1, content)];
    JoinPush([Header] + Entries(contents), Entry(|contents| + 1, content), '\n');
  }

  /** The digest is the title, a blank line, and the entries, one per line:
      the header's own newline and the joining newline make the blank line. */
  lemma DigestBlankLine(contents: seq<string>)
    ensures DigestText(contents) == Join([Title, ""] + Entries(contents), '\n')
    ensures contents == [] ==> DigestText(contents) == Title + "\n"
    ensures contents != [] ==> DigestText(contents) == Title + "\n\n" + Join(Entries(contents), '\n')
  {
    var es := Entries(contents);
    if contents == [] {
      assert [Title, ""][1..] == [""];
    } else {
      assert ([Header] + es)[1..] == es;
      assert ([Title, ""] + es)[1..] == [""] + es;
      assert ([""] + es)[1..] == es;
    }
  }

  /** For contents without newlines, the lines of the digest are exactly
      the title, an empty line, and entry `i + 1` for thought `i`, in input
      order. */
  lemma DigestLines(contents: seq<string>)
    requires forall i :: 0 <= i < |contents| ==> '\n' !in contents[i]
    ensures Split(DigestText(contents), '\n') == [Title, ""] + Entries(contents)
  {
    DigestBlankLine(contents);
    var lines := [Title, ""] + Entries(contents);
    forall i | 0 <= i < |lines| ensures '\n' !in lines[i] {
      if i >= 2 {
        EntryHasNoNewline(i - 1, contents[i - 2]);
      } else if i == 0 {
        TitleHasNoNewline();
      }
    }
    SplitJoin(lines, '\n');
  }

  lemma TitleHasNoNewline()
    ensures '\n' !in Title
  {
    assert forall k :: 0 <= k < |Title| ==> Title[k] != '\n';
  }

  lemma EntryHasNoNewline(n: nat, content: string)
    requires '\n' !in content
    ensures '\n' !in Entry(n, content)
  {
    var d := NatToString(n);
    var p := Preview(content);
    assert forall k :: 0 <= k < |d| ==> d[k] != '\n';
    assert forall k :: 0 <= k < |p| ==> p[k] == content[k];
    var e := Entry(n, content);
    forall k | 0 <= k < |e| ensures e[k] != '\n' {
      if k < |d| {
        assert e[k] == d[k];
      } else if k < |d| + 2 {
        assert e[k] == ". "[k - |d|];
      } else if k < |d| + 2 + |p| {
        assert e[k] == p[k - |d| - 2];
      } else {
        assert e[k] == "..."[k - |d| - 2 - |p|];
      }
    }
  }

  /** For at least one thought, `sendDigest` sends the digest as one message
      to the client's default channel and target. */
  lemma DigestSentAsOneMessage(c: Client, contents: seq<string>, net: Network)
    requires IsSet(c.token) && |contents| > 0
    ensures var d := SendMessage(c, DigestText(contents), NoSendOptions, net);
      && |d.requests| == 1
      && d.requests[0] == MessageRequest(c, c.defaultChannel, c.defaultTarget, DigestText(contents))
  {
  }
}
