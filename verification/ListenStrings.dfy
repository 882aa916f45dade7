/** Kong's *_LISTEN environment values: how they are printed and how they are parsed. */
module ListenStrings {
  import opened Wrappers
  import opened Strings
  import opened HostPorts

  // ---------------------------------------------------------------- words

  predicate SpaceFree(s: string) {
    forall c :: c in s ==> !IsSpace(c)
  }

  /** The length of the longest space-free prefix. */
  function WordLength(s: string): (n: nat)
    ensures n <= |s| && (forall k :: 0 <= k < n ==> !IsSpace(s[k])) && (n < |s| ==> IsSpace(s[n]))
  {
    if s == "" || IsSpace(s[0]) then 0 else 1 + WordLength(s[1..])
  }

  /** strings.Fields. */
  function Fields(s: string): seq<string> {
    if s == "" then []
    else if IsSpace(s[0]) then Fields(s[1..])
    else
      var n := WordLength(s);
      [s[..n]] + Fields(s[n..])
  }

  lemma {:induction false} FieldsAreWords(s: string)
    ensures forall w :: w in Fields(s) ==> w != "" && SpaceFree(w)
    ensures forall w, c :: w in Fields(s) && c in w ==> c in s
    decreases |s|
  {
    if s != "" {
      if IsSpace(s[0]) {
        FieldsAreWords(s[1..]);
      } else {
        FieldsAreWords(s[WordLength(s)..]);
      }
    }
  }

  lemma {:induction false} FieldsOfWord(w: string, rest: string)
    requires w != "" && SpaceFree(w) && (rest == "" || IsSpace(rest[0]))
    ensures Fields(w + rest) == [w] + Fields(rest)
  {
    var s := w + rest;
    assert forall k :: 0 <= k < |w| ==> s[k] == w[k];
    assert rest != "" ==> s[|w|] == rest[0];
    assert WordLength(s) == |w|;
    assert s[..|w|] == w && s[|w|..] == rest;
  }

  lemma {:induction false} FieldsOfJoin(words: seq<string>)
    requires forall w :: w in words ==> w != "" && SpaceFree(w)
    ensures Fields(Join(words, ' ')) == words
  {
    if words != [] {
      var w := words[0];
      assert w in words;
      if |words| == 1 {
        FieldsOfWord(w, "");
        assert w + "" == w;
      } else {
        var rest := words[1..];
        assert forall v :: v in rest ==> v in words;
        FieldsOfJoin(rest);
        var tail := " " + Join(rest, ' ');
        assert Join(words, ' ') == w + tail;
        FieldsOfWord(w, tail);
        assert Fields(tail) == rest by {
          assert tail[1..] == Join(rest, ' ');
        }
        hide Fields, Join, SpaceFree;
        assert words == [w] + rest;
      }
    }
  }

  // ---------------------------------------------------------------- parsing

  datatype Bucket = Plain | Ssl | Udp

  datatype Endpoint = Endpoint(address: string, port: int, options: seq<string>)

  datatype Entry = Entry(bucket: Bucket, endpoint: Endpoint)

  datatype ListenConfig = ListenConfig(endpoints: seq<Endpoint>, sslEndpoints: seq<Endpoint>,
      udpEndpoints: seq<Endpoint>)

  function BucketOf(flags: seq<string>): Bucket {
    if "ssl" in flags then Ssl else if "udp" in flags then Udp else Plain
  }

  /** The flags that are neither `ssl` nor `udp`, in order. */
  function Options(flags: seq<string>): seq<string> {
    if flags == [] then []
    else
      var last := flags[|flags| - 1];
      Options(flags[..|flags| - 1]) + if last == "ssl" || last == "udp" then [] else [last]
  }

  function TrimOneSpace(s: string): string {
    if s != "" && s[0] == ' ' then s[1..] else s
  }

  /** One entry: host:port, then flags. */
  function ParseEntry(entry: string): Option<Entry> {
    var s := TrimOneSpace(entry);
    var i := IndexOf(s, ' ');
    var hostPort := if i >= 0 then s[..i] else s;
    match SplitHostPort(hostPort)
    case None => None
    case Some((host, port)) =>
      match Atoi(port)
      case None => None
      case Some(p) =>
        var flags := if i >= 0 then Fields(s[i + 1..]) else [];
        Some(Entry(BucketOf(flags), Endpoint(host, p, Options(flags))))
  }

  function ParseEach(parts: seq<string>): seq<Option<Entry>> {
    if parts == [] then [] else ParseEach(parts[..|parts| - 1]) + [ParseEntry(parts[|parts| - 1])]
  }

  predicate AllSome(es: seq<Option<Entry>>) {
    forall k :: 0 <= k < |es| ==> es[k].Some?
  }

  /** The endpoints of one bucket, in the order of the entries. */
  function InBucket(es: seq<Option<Entry>>, b: Bucket): seq<Endpoint> {
    if es == [] then [] else InBucket(es[..|es| - 1], b) + OfBucket(es[|es| - 1], b)
  }

  function OfBucket(e: Option<Entry>, b: Bucket): seq<Endpoint> {
    if e.Some? && e.value.bucket == b then [e.value.endpoint] else []
  }

  /** All entries have to parse; then each endpoint goes to its bucket. */
  function Collect(es: seq<Option<Entry>>): Option<ListenConfig> {
    if AllSome(es) then Some(ListenConfig(InBucket(es, Plain), InBucket(es, Ssl), InBucket(es, Udp))) else None
  }

  function ParseListen(str: string): Option<ListenConfig> {
    Collect(ParseEach(Split(str, ',')))
  }

  // ---------------------------------------------------------------- what parses

  /** One entry, possibly after one space: a host and a port, and then nothing or a space and flags. */
  predicate Spells(entry: string, address: string, host: string, port: string, tail: string) {
    && (entry == address + tail || entry == " " + address + tail)
    && Writes(address, host, port) && Atoi(port).Some?
    && ' ' !in address && (tail == "" || tail[0] == ' ')
  }

  lemma {:induction false} TrimmedSpelling(entry: string, address: string, tail: string)
    requires entry == address + tail || entry == " " + address + tail
    requires address != "" && ' ' !in address
    ensures TrimOneSpace(entry) == address + tail
  {
    assert address[0] in address;
    assert (" " + address + tail)[1..] == address + tail;
  }

  lemma {:induction false} FirstSpace(address: string, tail: string)
    requires ' ' !in address && (tail == "" || tail[0] == ' ')
    ensures var s := address + tail;
      && IndexOf(s, ' ') == (if tail == "" then -1 else |address|)
      && s[..|address|] == address && (tail != "" ==> s[|address| + 1..] == tail[1..])
  {
    hide IndexOf;
    var s := address + tail;
    assert tail == "" ==> s == address;
    assert tail != "" ==> s[|address|] == ' ';
    assert forall k :: 0 <= k < |address| ==> s[k] == address[k];
  }

  lemma {:induction false} SpellingParses(entry: string, address: string, host: string, port: string, tail: string)
    requires Spells(entry, address, host, port, tail)
    ensures var flags := if tail == "" then [] else Fields(tail[1..]);
      ParseEntry(entry) == Some(Entry(BucketOf(flags), Endpoint(host, Atoi(port).value, Options(flags))))
  {
    hide SplitHostPort, Fields, Atoi, Options, BucketOf, IndexOf, TrimOneSpace;
    TrimmedSpelling(entry, address, tail);
    FirstSpace(address, tail);
    SplitsIff(address, host, port);
    assert tail == "" ==> address + tail == address;
  }

  lemma {:induction false} ParsedSpelling(entry: string)
    returns (address: string, host: string, port: string, tail: string)
    requires ParseEntry(entry).Some?
    ensures Spells(entry, address, host, port, tail)
  {
    hide SplitHostPort, Fields, Atoi, Options, BucketOf, IndexOf;
    var s := TrimOneSpace(entry);
    var i := IndexOf(s, ' ');
    address := if i >= 0 then s[..i] else s;
    tail := if i >= 0 then s[i..] else "";
    host, port := SplitHostPort(address).value.0, SplitHostPort(address).value.1;
    SplitsIff(address, host, port);
    assert s == address + tail;
    assert entry == s || entry == " " + s;
    assert " " + s == " " + address + tail;
  }

  ghost predicate Spelled(entry: string) {
    exists address, host, port, tail :: Spells(entry, address, host, port, tail)
  }

  lemma {:induction false} EntryParsesIff(entry: string)
    ensures ParseEntry(entry).Some? <==> Spelled(entry)
  {
    hide ParseEntry, Spells;
    if ParseEntry(entry).Some? {
      var address, host, port, tail := ParsedSpelling(entry);
    }
    if Spelled(entry) {
      var address, host, port, tail :| Spells(entry, address, host, port, tail);
      SpellingParses(entry, address, host, port, tail);
    }
  }

  /** A value parses if and only if each of the entries between its commas is a host and a decimal port,
      possibly after one space, and possibly with flags after another. */
  lemma {:induction false} ParsesIff(value: string)
    ensures ParseListen(value).Some? <==> forall e :: e in Split(value, ',') ==> Spelled(e)
  {
    hide ParseEntry, Split, Spelled;
    var parts := Split(value, ',');
    var es := ParseEach(parts);
    forall k | 0 <= k < |parts| ensures |es| == |parts| && (es[k].Some? <==> Spelled(parts[k])) {
      EachAt(parts, k);
      EntryParsesIff(parts[k]);
    }
    NoneParsed(parts);
    hide ParseEach;
    if AllSome(es) {
      forall e | e in parts ensures Spelled(e) {
        var k :| 0 <= k < |parts| && parts[k] == e;
        assert es[k].Some?;
      }
    } else {
      var k :| 0 <= k < |es| && es[k].None?;
      assert parts[k] in parts;
    }
  }

  lemma {:induction false} NoneParsed(parts: seq<string>)
    ensures |ParseEach(parts)| == |parts|
  {
    if parts != [] {
      NoneParsed(parts[..|parts| - 1]);
    }
  }

  lemma {:induction false} EachAt(parts: seq<string>, n: nat)
    requires n < |parts|
    ensures |ParseEach(parts)| == |parts| && ParseEach(parts)[n] == ParseEntry(parts[n])
    ensures ParseEach(parts[..n + 1]) == ParseEach(parts[..n]) + [ParseEntry(parts[n])]
  {
    hide ParseEntry;
    assert parts[..n + 1][..n] == parts[..n];
    var m := |parts| - 1;
    if n < m {
      EachAt(parts[..m], n);
    } else if m > 0 {
      EachAt(parts[..m], 0);
    }
  }

  /** The flag loop of parseKongListenEnv. */
  method ReadFlags(flags: seq<string>) returns (ssl: bool, udp: bool, options: seq<string>)
    ensures ssl == ("ssl" in flags) && udp == ("udp" in flags) && options == Options(flags)
  {
    ssl, udp, options := false, false, [];
    for k := 0 to |flags|
      invariant ssl == ("ssl" in flags[..k]) && udp == ("udp" in flags[..k])
      invariant options == Options(flags[..k])
    {
      assert flags[..k + 1] == flags[..k] + [flags[k]];
      if flags[k] == "ssl" {
        ssl := true;
      } else if flags[k] == "udp" {
        udp := true;
      } else {
        options := options + [flags[k]];
      }
    }
    assert flags[..|flags|] == flags;
  }

  /** One turn of the loop of parseKongListenEnv. */
  method ReadEntry(entry: string) returns (r: Option<Entry>)
    ensures r == ParseEntry(entry)
  {
    var s := TrimOneSpace(entry);
    var i := IndexOf(s, ' ');
    var hostPort := if i >= 0 then s[..i] else s;
    var split := SplitHostPort(hostPort);
    if split.None? {
      return None;
    }
    var p := Atoi(split.value.1);
    if p.None? {
      return None;
    }
    var flags := if i >= 0 then Fields(s[i + 1..]) else [];
    var ssl, udp, options := ReadFlags(flags);
    r := Some(Entry(if ssl then Ssl else if udp then Udp else Plain, Endpoint(split.value.0, p.value, options)));
  }

  /** parseKongListenEnv.  None stands for an error. */
  method ParseKongListenEnv(str: string) returns (r: Option<ListenConfig>)
    ensures r == Collect(ParseEach(Split(str, ',')))
  {
    r := CollectEntries(Split(str, ','));
  }

  /** The loop of parseKongListenEnv. */
  method CollectEntries(parts: seq<string>) returns (r: Option<ListenConfig>)
    ensures r == Collect(ParseEach(parts))
  {
    hide ParseEntry;
    var endpoints, sslEndpoints, udpEndpoints: seq<Endpoint> := [], [], [];
    for n := 0 to |parts|
      invariant AllSome(ParseEach(parts[..n]))
      invariant endpoints == InBucket(ParseEach(parts[..n]), Plain)
      invariant sslEndpoints == InBucket(ParseEach(parts[..n]), Ssl)
      invariant udpEndpoints == InBucket(ParseEach(parts[..n]), Udp)
    {
      EachAt(parts, n);
      var entry := ReadEntry(parts[n]);
      if entry.None? {
        return None;
      }
      match entry.value.bucket {
        case Ssl => sslEndpoints := sslEndpoints + [entry.value.endpoint];
        case Udp => udpEndpoints := udpEndpoints + [entry.value.endpoint];
        case Plain => endpoints := endpoints + [entry.value.endpoint];
      }
    }
    assert parts[..|parts|] == parts;
    r := Some(ListenConfig(endpoints, sslEndpoints, udpEndpoints));
  }

  // ---------------------------------------------------------------- printing

  /** The user-controlled part of an entry. */
  datatype Template = Template(address: string, options: seq<string>)

  /** renderStreamListenEntry. */
  function RenderEntry(t: Template, port: int, tokens: seq<string>): string {
    Join([JoinHostPort(t.address, Itoa(port))] + tokens + t.options, ' ')
  }

  /** A listen flag that is neither a bucket token nor broken by a separator. */
  predicate PlainOption(o: string) {
    o != "" && SpaceFree(o) && ',' !in o && o != "ssl" && o != "udp"
  }

  predicate PlainTemplate(t: Template) {
    && BracketFree(t.address) && ' ' !in t.address && ',' !in t.address
    && forall o :: o in t.options ==> PlainOption(o)
  }

  predicate BucketTokens(tokens: seq<string>, b: Bucket) {
    tokens == match b case Plain => [] case Ssl => ["ssl"] case Udp => ["udp"]
  }

  lemma {:induction false} OptionsKeepsPlain(options: seq<string>)
    requires forall o :: o in options ==> PlainOption(o)
    ensures Options(options) == options
  {
    if options != [] {
      OptionsKeepsPlain(options[..|options| - 1]);
      assert PlainOption(options[|options| - 1]);
    }
  }

  lemma {:induction false} OptionsConcat(a: seq<string>, b: seq<string>)
    ensures Options(a + b) == Options(a) + Options(b)
    decreases |b|
  {
    if b == [] {
      assert a + b == a;
    } else {
      assert (a + b)[..|a + b| - 1] == a + b[..|b| - 1];
      OptionsConcat(a, b[..|b| - 1]);
    }
  }

  lemma {:induction false} FlagsOf(options: seq<string>, tokens: seq<string>, b: Bucket)
    requires BucketTokens(tokens, b) && forall o :: o in options ==> PlainOption(o)
    ensures BucketOf(tokens + options) == b && Options(tokens + options) == options
  {
    OptionsConcat(tokens, options);
    OptionsKeepsPlain(options);
    TokensAlone(tokens, b);
    assert "ssl" !in options && "udp" !in options;
  }

  lemma {:induction false} TokensAlone(tokens: seq<string>, b: Bucket)
    requires BucketTokens(tokens, b)
    ensures Options(tokens) == [] && BucketOf(tokens) == b
  {
    if b != Plain {
      assert tokens[..|tokens| - 1] == [];
    }
  }

  /** The printed host and port have no separator in them. */
  lemma {:induction false} HostPortPlain(t: Template, port: int)
    requires PlainTemplate(t)
    ensures var hostPort := JoinHostPort(t.address, Itoa(port));
      hostPort != "" && ' ' !in hostPort && ',' !in hostPort
  {
    ItoaPlain(port);
  }

  /** What is printed after the host and port. */
  function TailOf(words: seq<string>): string {
    if words == [] then "" else " " + Join(words, ' ')
  }

  lemma {:induction false} RenderedCut(hostPort: string, words: seq<string>)
    requires forall w :: w in words ==> w != "" && SpaceFree(w)
    ensures Join([hostPort] + words, ' ') == hostPort + TailOf(words)
    ensures words == if TailOf(words) == "" then [] else Fields(TailOf(words)[1..])
  {
    if words == [] {
      assert Join([hostPort] + words, ' ') == hostPort;
    } else {
      FieldsOfJoin(words);
      hide Fields;
      assert ([hostPort] + words)[1..] == words;
      assert TailOf(words)[1..] == Join(words, ' ');
    }
  }

  lemma {:induction false} EntryFlagsAreWords(t: Template, tokens: seq<string>, b: Bucket)
    requires PlainTemplate(t) && BucketTokens(tokens, b)
    ensures forall w :: w in tokens + t.options ==> w != "" && SpaceFree(w) && ',' !in w
  {
    forall w | w in tokens + t.options ensures w != "" && SpaceFree(w) && ',' !in w {
      if w !in tokens {
        assert w in t.options;
      }
    }
  }

  /** Parsing one printed entry gives back its bucket, address, port and options. */
  lemma {:induction false} ParseRendered(t: Template, port: int, tokens: seq<string>, b: Bucket)
    requires PlainTemplate(t) && BucketTokens(tokens, b) && -MAX_INT - 1 <= port <= MAX_INT
    ensures ParseEntry(RenderEntry(t, port, tokens)) == Some(Entry(b, Endpoint(t.address, port, t.options)))
  {
    hide ParseEntry, JoinHostPort, Fields, Atoi, Itoa, Join, Options, BucketOf, TailOf;
    var hostPort := JoinHostPort(t.address, Itoa(port));
    var words := tokens + t.options;
    assert [hostPort] + tokens + t.options == [hostPort] + words;
    HostPortPlain(t, port);
    EntryFlagsAreWords(t, tokens, b);
    RenderedCut(hostPort, words);
    HostPortWrites(t.address, port);
    AtoiItoa(port);
    TailStarts(words);
    SpellingParses(RenderEntry(t, port, tokens), hostPort, t.address, Itoa(port), TailOf(words));
    FlagsOf(t.options, tokens, b);
  }

  lemma {:induction false} TailStarts(words: seq<string>)
    ensures TailOf(words) == "" || TailOf(words)[0] == ' '
  {
  }

  lemma {:induction false} HostPortWrites(host: string, port: int)
    requires BracketFree(host)
    ensures Writes(JoinHostPort(host, Itoa(port)), host, Itoa(port))
  {
    ItoaPlain(port);
    hide Itoa;
  }

  lemma {:induction false} JoinFree(words: seq<string>, sep: char, c: char)
    requires sep != c && forall w :: w in words ==> c !in w
    ensures c !in Join(words, sep)
  {
    if |words| > 1 {
      JoinFree(words[1..], sep, c);
    }
  }

  lemma {:induction false} RenderedCommaFree(t: Template, port: int, tokens: seq<string>, b: Bucket)
    requires PlainTemplate(t) && BucketTokens(tokens, b)
    ensures ',' !in RenderEntry(t, port, tokens)
  {
    HostPortPlain(t, port);
    EntryFlagsAreWords(t, tokens, b);
    var words := tokens + t.options;
    assert [JoinHostPort(t.address, Itoa(port))] + tokens + t.options == [JoinHostPort(t.address, Itoa(port))] + words;
    JoinFree([JoinHostPort(t.address, Itoa(port))] + words, ' ', ',');
  }

  // ---------------------------------------------------------------- templates from a parse

  predicate IsFlag(f: string) {
    f != "" && SpaceFree(f) && ',' !in f
  }

  lemma {:induction false} OptionsArePlain(flags: seq<string>)
    requires forall k :: 0 <= k < |flags| ==> IsFlag(flags[k])
    ensures forall o :: o in Options(flags) ==> PlainOption(o)
  {
    if flags != [] {
      OptionsArePlain(flags[..|flags| - 1]);
      assert IsFlag(flags[|flags| - 1]);
    }
  }

  lemma {:induction false} EntryIsPlain(entry: string)
    requires ',' !in entry && ParseEntry(entry).Some?
    ensures var e := ParseEntry(entry).value.endpoint;
      PlainTemplate(Template(e.address, e.options))
  {
    hide ParseEntry, Fields, Options, Atoi, BucketOf;
    var address, host, port, tail := ParsedSpelling(entry);
    SpellingParses(entry, address, host, port, tail);
    assert forall c :: c in address ==> c in entry;
    assert forall c :: c in tail ==> c in entry;
    assert forall c :: c in host ==> c in address;
    if tail == "" {
      assert Options([]) == [] by {
        NoOptions();
      }
    } else {
      FlagsArePlain(tail[1..]);
    }
  }

  lemma {:induction false} NoOptions()
    ensures Options([]) == []
  {
  }

  lemma {:induction false} FlagsArePlain(s: string)
    requires ',' !in s
    ensures forall o :: o in Options(Fields(s)) ==> PlainOption(o)
  {
    var flags := Fields(s);
    FieldsAreWords(s);
    forall k | 0 <= k < |flags| ensures IsFlag(flags[k]) {
      assert flags[k] in flags;
    }
    OptionsArePlain(flags);
  }

  lemma {:induction false} BucketIsPlain(parts: seq<string>, b: Bucket)
    requires forall p :: p in parts ==> ',' !in p
    ensures forall e :: e in InBucket(ParseEach(parts), b) ==> PlainTemplate(Template(e.address, e.options))
  {
    hide ParseEntry;
    if parts != [] {
      var last := parts[|parts| - 1];
      assert last in parts && forall p :: p in parts[..|parts| - 1] ==> p in parts;
      BucketIsPlain(parts[..|parts| - 1], b);
      if ParseEntry(last).Some? {
        EntryIsPlain(last);
      }
    }
  }

  /** Whatever value is parsed, its endpoints can be printed and parsed again without loss. */
  lemma {:induction false} ParsedEndpointsArePlain(str: string)
    requires ParseListen(str).Some?
    ensures forall e :: e in ParseListen(str).value.sslEndpoints ==> PlainTemplate(Template(e.address, e.options))
  {
    SplitPartsFree(str, ',');
    BucketIsPlain(Split(str, ','), Ssl);
  }
}
