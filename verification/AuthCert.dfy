/**
 Whose certificate the timestamp is requested with (signing/authcert.go), and the deployment
 settings the decision reads.
 */
module AuthCert {
  import opened Wrappers
  import opened Jobs

  datatype FlowSet = FlowSet(all: bool, flows: set<Flow>) {
    predicate Has(f: Flow) { all || f in flows }
  }

  datatype Config = Config(
    tsaAccessCert: string,
    accessCertFlows: FlowSet,
    legacyEidEnabled: bool,
    cscEnabled: bool)

  function FlowName(f: Flow): string {
    match f
    case WebEid => "webEid"
    case LegacyEid => "legacyEid"
    case EparakstsMobile => "eparakstsMobile"
    case EidScan => "eidScan"
    case EparakstsMobileEseal => "eparakstsMobileEseal"
    case CscEidScan => "cscEidScan"
    case CscEidPlugin => "cscEidPlugin"
    case Unregistered(name) => name
  }

  /** The registered flow of that exact name. */
  function FlowNamed(name: string): Option<Flow> {
    if name == "webEid" then Some(WebEid)
    else if name == "legacyEid" then Some(LegacyEid)
    else if name == "eparakstsMobile" then Some(EparakstsMobile)
    else if name == "eidScan" then Some(EidScan)
    else if name == "eparakstsMobileEseal" then Some(EparakstsMobileEseal)
    else if name == "cscEidScan" then Some(CscEidScan)
    else if name == "cscEidPlugin" then Some(CscEidPlugin)
    else None
  }

  /** Unicode's White_Space. */
  predicate IsSpace(c: char) {
    || c == ' ' || '\t' <= c <= '\r' || c == 0x85 as char || c == 0xA0 as char || c == 0x1680 as char
    || 0x2000 as char <= c <= 0x200A as char || c == 0x2028 as char || c == 0x2029 as char || c == 0x202F as char
    || c == 0x205F as char || c == 0x3000 as char
  }

  lemma SpacesAreUnicode(c: char)
    ensures IsSpace(c) <==> c as int in {0x09, 0x0A, 0x0B, 0x0C, 0x0D, 0x20, 0x85, 0xA0, 0x1680,
      0x2000, 0x2001, 0x2002, 0x2003, 0x2004, 0x2005, 0x2006, 0x2007, 0x2008, 0x2009, 0x200A,
      0x2028, 0x2029, 0x202F, 0x205F, 0x3000}
  {
  }

  function TrimLeft(s: string): string {
    if s != "" && IsSpace(s[0]) then TrimLeft(s[1..]) else s
  }

  function TrimRight(s: string): string {
    if s != "" && IsSpace(s[|s| - 1]) then TrimRight(s[..|s| - 1]) else s
  }

  function Trim(s: string): string {
    TrimRight(TrimLeft(s))
  }

  /** White space and nothing else. */
  ghost predicate AllSpace(s: string) {
    forall k :: 0 <= k < |s| ==> IsSpace(s[k])
  }

  /** What is left of a text once the white space at either end is gone. */
  ghost predicate Trimmed(s: string, t: string) {
    && (exists before, after :: s == before + t + after && AllSpace(before) && AllSpace(after))
    && (t != "" ==> !IsSpace(t[0]) && !IsSpace(t[|t| - 1]))
  }

  lemma {:induction false} TrimLeftKeeps(s: string) returns (before: string)
    ensures s == before + TrimLeft(s) && AllSpace(before)
    ensures TrimLeft(s) != "" ==> !IsSpace(TrimLeft(s)[0])
  {
    if s != "" && IsSpace(s[0]) {
      var more := TrimLeftKeeps(s[1..]);
      before := [s[0]] + more;
    } else {
      before := "";
    }
  }

  lemma {:induction false} TrimRightKeeps(s: string) returns (after: string)
    ensures s == TrimRight(s) + after && AllSpace(after)
    ensures TrimRight(s) != "" ==> !IsSpace(TrimRight(s)[|TrimRight(s)| - 1]) && TrimRight(s)[0] == s[0]
  {
    if s != "" && IsSpace(s[|s| - 1]) {
      var more := TrimRightKeeps(s[..|s| - 1]);
      after := more + [s[|s| - 1]];
    } else {
      after := "";
    }
  }

  lemma TrimIsTrimmed(s: string)
    ensures Trimmed(s, Trim(s))
  {
    var before := TrimLeftKeeps(s);
    var after := TrimRightKeeps(TrimLeft(s));
    assert s == before + Trim(s) + after;
  }

  /** A stretch that starts and ends with no space cannot start later than another one. */
  lemma TrimmedStart(s: string, t: string, i: nat, u: string, k: nat)
    requires i + |t| <= |s| && k + |u| <= |s| && s[i..i + |t|] == t && s[k..k + |u|] == u
    requires t != "" && !IsSpace(t[0]) && !IsSpace(t[|t| - 1]) && AllSpace(s[..k]) && AllSpace(s[k + |u|..])
    ensures k <= i && i + |t| <= k + |u|
  {
    assert s[i] == t[0] && s[i + |t| - 1] == t[|t| - 1];
    assert forall x :: 0 <= x < k ==> s[..k][x] == s[x];
    assert forall x :: k + |u| <= x < |s| ==> s[k + |u|..][x - (k + |u|)] == s[x];
  }

  lemma TrimmedAt(s: string, t: string) returns (i: nat)
    requires Trimmed(s, t)
    ensures i + |t| <= |s| && s[i..i + |t|] == t && AllSpace(s[..i]) && AllSpace(s[i + |t|..])
  {
    var before, after :| s == before + t + after && AllSpace(before) && AllSpace(after);
    i := |before|;
    assert s[..i] == before && s[i + |t|..] == after;
  }

  lemma TrimmedOnce(s: string, t: string, u: string)
    requires Trimmed(s, t) && Trimmed(s, u)
    ensures t == u
  {
    var i := TrimmedAt(s, t);
    var k := TrimmedAt(s, u);
    if t != "" { TrimmedStart(s, t, i, u, k); }
    if u != "" { TrimmedStart(s, u, k, t, i); }
  }

  /** Trim is the one stretch between the white space at either end. */
  lemma TrimExactly(s: string, t: string)
    ensures Trim(s) == t <==> Trimmed(s, t)
  {
    TrimIsTrimmed(s);
    if Trimmed(s, t) { TrimmedOnce(s, t, Trim(s)); }
  }

  /** Letters of "all" in either case; no other character folds to one of them. */
  function Lower(c: char): char {
    if 'A' <= c <= 'Z' then (c as int + 32) as char else c
  }

  predicate IsAll(name: string) {
    |name| == 3 && Lower(name[0]) == 'a' && Lower(name[1]) == 'l' && Lower(name[2]) == 'l'
  }

  lemma AllIsEitherCase(name: string)
    ensures IsAll(name) <==> name in ["all", "alL", "aLl", "aLL", "All", "AlL", "ALl", "ALL"]
  {
    if |name| == 3 { assert name == [name[0], name[1], name[2]]; }
  }

  /** The pieces of a comma-separated list; never empty. */
  function Split(list: string): seq<string> {
    if list == "" then [""]
    else if list[0] == ',' then [""] + Split(list[1..])
    else var rest := Split(list[1..]); if rest == [] then [] else [[list[0]] + rest[0]] + rest[1..]
  }

  /** list[i..k] is what stands between two commas, or between a comma and an end, or is all of the list. */
  ghost predicate Piece(list: string, i: int, k: int) {
    && 0 <= i <= k <= |list|
    && (i == 0 || list[i - 1] == ',') && (k == |list| || list[k] == ',')
    && ',' !in list[i..k]
  }

  /** The first piece of the list: as far as the first comma. */
  lemma {:induction false} SplitHead(list: string) returns (k: nat)
    ensures Piece(list, 0, k) && Split(list) != [] && Split(list)[0] == list[..k]
    ensures Split(list)[1..] == if k == |list| then [] else Split(list[k + 1..])
  {
    if list == "" {
      k := 0;
    } else if list[0] == ',' {
      k := 0;
    } else {
      k := SplitHead(list[1..]);
      k := k + 1;
      assert list[..k] == [list[0]] + list[1..][..k - 1];
      if k < |list| { assert list[1..][k - 1 + 1..] == list[k + 1..]; }
    }
  }

  lemma PieceOfTail(list: string, k: nat, a: int, b: int)
    requires k < |list| && list[k] == ',' && k < a <= b <= |list|
    ensures Piece(list, a, b) <==> Piece(list[k + 1..], a - (k + 1), b - (k + 1))
    ensures list[a..b] == list[k + 1..][a - (k + 1)..b - (k + 1)]
  {
    assert list[a..b] == list[k + 1..][a - (k + 1)..b - (k + 1)];
  }

  /** Of the pieces, only the first starts before the first comma. */
  lemma FirstPiece(list: string, k: nat, a: int, b: int)
    requires Piece(list, 0, k) && Piece(list, a, b) && a <= k
    ensures a == 0 && b == k
  {
    assert forall x :: 0 <= x < k ==> list[0..k][x] == list[x];
    assert forall x :: a <= x < b ==> list[a..b][x - a] == list[x];
  }

  ghost predicate PieceText(list: string, p: string, a: int, b: int) {
    Piece(list, a, b) && list[a..b] == p
  }

  ghost predicate HasPiece(list: string, p: string) {
    exists a, b :: PieceText(list, p, a, b)
  }

  /** Split finds exactly the pieces between commas. */
  lemma {:induction false} SplitExactly(list: string, p: string)
    ensures p in Split(list) <==> HasPiece(list, p)
    decreases |list|
  {
    var k := SplitHead(list);
    assert Split(list) == [Split(list)[0]] + Split(list)[1..];
    HeadPiece(list, p, k);
    if k < |list| {
      SplitExactly(list[k + 1..], p);
      TailPiece(list, p, k);
    }
    if HasPiece(list, p) {
      var a, b :| PieceText(list, p, a, b);
      if a <= k { FirstPiece(list, k, a, b); } else { TailPieceOf(list, p, k, a, b); }
    }
  }

  lemma HeadPiece(list: string, p: string, k: nat)
    requires Piece(list, 0, k)
    ensures p == list[..k] ==> HasPiece(list, p)
  {
    assert list[0..k] == list[..k];
    if p == list[..k] { assert PieceText(list, p, 0, k); }
  }

  lemma TailPieceOf(list: string, p: string, k: nat, a: int, b: int)
    requires k < |list| && list[k] == ',' && k < a && PieceText(list, p, a, b)
    ensures HasPiece(list[k + 1..], p)
  {
    PieceOfTail(list, k, a, b);
    assert PieceText(list[k + 1..], p, a - (k + 1), b - (k + 1));
  }

  lemma TailPiece(list: string, p: string, k: nat)
    requires k < |list| && list[k] == ','
    ensures HasPiece(list[k + 1..], p) ==> HasPiece(list, p)
  {
    if HasPiece(list[k + 1..], p) {
      var x, y :| PieceText(list[k + 1..], p, x, y);
      PieceOfTail(list, k, x + k + 1, y + k + 1);
      assert PieceText(list, p, x + k + 1, y + k + 1);
    }
  }

  /** A piece of the list, trimmed, is the flow's name, or "all" in any case. */
  ghost predicate Lists(list: string, f: Flow) {
    exists a, b, name :: ListEntry(list, a, b, name) && (IsAll(name) || name == FlowName(f))
  }

  ghost predicate ListEntry(list: string, a: int, b: int, name: string) {
    Piece(list, a, b) && Trimmed(list[a..b], name)
  }

  lemma {:induction false} ListsByPieces(list: string, f: Flow)
    ensures Lists(list, f) <==> exists p :: p in Split(list) && (IsAll(Trim(p)) || Trim(p) == FlowName(f))
  {
    if Lists(list, f) {
      var a, b, name :| ListEntry(list, a, b, name) && (IsAll(name) || name == FlowName(f));
      TrimExactly(list[a..b], name);
      SplitExactly(list, list[a..b]);
      assert PieceText(list, list[a..b], a, b);
    }
    forall p | p in Split(list) && (IsAll(Trim(p)) || Trim(p) == FlowName(f)) ensures Lists(list, f) {
      SplitExactly(list, p);
      var a, b :| PieceText(list, p, a, b);
      TrimExactly(p, Trim(p));
      assert ListEntry(list, a, b, Trim(p));
    }
  }

  /** What one entry of the list selects. */
  datatype Selection = Nothing | Every | One(flow: Flow)

  function Selects(piece: string): Selection {
    var name := Trim(piece);
    if name == "" then Nothing
    else if IsAll(name) then Every
    else match FlowNamed(name) case None => Nothing case Some(f) => One(f)
  }

  lemma SelectsByName(piece: string, f: Flow)
    requires f.Registered()
    ensures Selects(piece) == Every <==> IsAll(Trim(piece))
    ensures Selects(piece) == One(f) <==> Trim(piece) == FlowName(f)
  {
    assert |"webEid"| == 6 && |"legacyEid"| == 9 && |"eparakstsMobile"| == 15 && |"eidScan"| == 7;
    assert |"eparakstsMobileEseal"| == 20 && |"cscEidScan"| == 10 && |"cscEidPlugin"| == 12;
  }

  /** The loop of ParseFlowSet. */
  method Collect(entries: seq<Selection>) returns (fs: FlowSet)
    ensures forall f: Flow :: fs.Has(f) <==> Every in entries || One(f) in entries
  {
    var all, flows: set<Flow> := false, {};
    var k := 0;
    while k < |entries|
      invariant k <= |entries|
      invariant all <==> Every in entries[..k]
      invariant forall f: Flow :: f in flows <==> One(f) in entries[..k]
    {
      match entries[k] {
        case Nothing =>
        case Every => all := true;
        case One(f) => flows := flows + {f};
      }
      assert entries[..k + 1] == entries[..k] + [entries[k]];
      k := k + 1;
    }
    assert entries[..k] == entries;
    fs := FlowSet(all, flows);
  }

  /** ParseFlowSet: a registered flow is in the set exactly when the list names it or says "all". */
  method ParseFlowSet(list: string) returns (fs: FlowSet)
    ensures forall f: Flow :: f.Registered() ==> (fs.Has(f) <==> Lists(list, f))
  {
    var names := Split(list);
    var entries := seq(|names|, i requires 0 <= i < |names| => Selects(names[i]));
    fs := Collect(entries);
    forall f: Flow | f.Registered() ensures fs.Has(f) <==> Lists(list, f) {
      ListedEntries(names, entries, f);
      ListsByPieces(list, f);
    }
  }

  lemma ListedEntries(names: seq<string>, entries: seq<Selection>, f: Flow)
    requires f.Registered() && |names| == |entries|
    requires forall i :: 0 <= i < |names| ==> entries[i] == Selects(names[i])
    ensures (Every in entries || One(f) in entries)
      <==> exists p :: p in names && (IsAll(Trim(p)) || Trim(p) == FlowName(f))
  {
    forall i | 0 <= i < |names|
      ensures (entries[i] == Every <==> IsAll(Trim(names[i])))
        && (entries[i] == One(f) <==> Trim(names[i]) == FlowName(f))
    {
      SelectsByName(names[i], f);
    }
  }

  /** The seven names a list can use, all different. */
  lemma FlowNamesAreDistinct(f: Flow, g: Flow)
    requires f.Registered() && g.Registered() && FlowName(f) == FlowName(g)
    ensures f == g
    ensures FlowName(f) == (match f
      case WebEid => "webEid" case LegacyEid => "legacyEid" case EparakstsMobile => "eparakstsMobile"
      case EidScan => "eidScan" case EparakstsMobileEseal => "eparakstsMobileEseal" case CscEidScan => "cscEidScan"
      case CscEidPlugin => "cscEidPlugin" case Unregistered(name) => name)
  {
    SelectsByName(FlowName(f), f);
    SelectsByName(FlowName(f), g);
    assert |"webEid"| == 6 && |"legacyEid"| == 9 && |"eparakstsMobile"| == 15 && |"eidScan"| == 7;
    assert |"eparakstsMobileEseal"| == 20 && |"cscEidScan"| == 10 && |"cscEidPlugin"| == 12;
  }

  datatype Source = Signer | Deployment

  datatype Certificate = Certificate(text: string, source: Source) {
    predicate Available() { text != "" }
  }

  /** authCertFor: the deployment's certificate for the flows configured so, the signer's own otherwise. */
  function CertificateFor(cfg: Config, flow: Flow, authCert: string): Certificate {
    if cfg.accessCertFlows.Has(flow) then Certificate(Trim(cfg.tsaAccessCert), Deployment)
    else Certificate(Trim(authCert), Signer)
  }

  /** The certificate is the deployment's for its flows and the signer's for the others, without surrounding space. */
  ghost predicate Stands(cfg: Config, flow: Flow, authCert: string, certificate: string) {
    Trimmed(if cfg.accessCertFlows.Has(flow) then cfg.tsaAccessCert else authCert, certificate)
  }

  /** authCertFor answers that one certificate, with its source, and has one exactly when it is not empty. */
  lemma CertificateExactly(cfg: Config, flow: Flow, authCert: string)
    ensures
      var c := CertificateFor(cfg, flow, authCert);
      && (forall text :: Stands(cfg, flow, authCert, text) <==> text == c.text)
      && c.source == (if cfg.accessCertFlows.Has(flow) then Deployment else Signer)
      && (c.Available() <==> !Stands(cfg, flow, authCert, ""))
  {
    var whole := if cfg.accessCertFlows.Has(flow) then cfg.tsaAccessCert else authCert;
    forall text ensures Stands(cfg, flow, authCert, text) <==> text == CertificateFor(cfg, flow, authCert).text {
      TrimExactly(whole, text);
    }
  }

  /** Offered: every registered flow, except CSC without a client and legacyEid unless switched on. */
  predicate Offered(cfg: Config, f: Flow) {
    && f.Registered()
    && (f.IsCsc() ==> cfg.cscEnabled)
    && (f.LegacyEid? ==> cfg.legacyEidEnabled)
  }

  /** Flow by flow. */
  lemma OfferedByFlow(cfg: Config, f: Flow)
    ensures Offered(cfg, f) <==>
      || f in {WebEid, EparakstsMobile, EidScan, EparakstsMobileEseal}
      || (f == LegacyEid && cfg.legacyEidEnabled)
      || (f in {CscEidScan, CscEidPlugin} && cfg.cscEnabled)
  {
  }
}
