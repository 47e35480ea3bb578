/**
 * The Python population script: settings from `.env.local` and the process
 * environment, the two-shape SEC registry parse, the ETF keyword filter, the
 * issuer and category classifiers, the row builder and the batched upsert.
 * Downloads are inputs; the randomised fund-flow seeding is not modelled.
 */
module PopulateSupabase {
  import opened Wrappers
  import opened Text
  import opened Chunking
  import opened Sorting
  import opened Patterns
  import opened Dicts
  import ImportAllEtfs

  const BATCH := 500

  // ------------------------------------------------------------ settings

  /** One line of the env file: the pieces around its first `=`, both stripped; blank lines, `#` lines and lines without `=` give nothing. */
  function EnvLine(line: string): Option<(string, string)> {
    EnvPieces(Trim(line))
  }

  /** A stripped line cut at its first `=`, the pieces stripped. */
  function EnvPieces(t: string): Option<(string, string)> {
    if t == "" || t[0] == '#' || '=' !in t then None
    else
      var k := IndexOf(t, '=');
      Some((Trim(t[..k]), Trim(t[k + 1..])))
  }

  lemma EnvPiecesMeaning(t: string)
    ensures EnvPieces(t).Some? <==> t != "" && t[0] != '#' && '=' in t
    ensures EnvPieces(t).Some? ==>
              exists k :: 0 <= k < |t| && t[k] == '=' && '=' !in t[..k] && EnvPieces(t).value == (Trim(t[..k]), Trim(t[k + 1..]))
  {
    if EnvPieces(t).Some? {
      var k := IndexOf(t, '=');
      assert t[k] == '=' && '=' !in t[..k];
    }
  }

  /** A line assigns exactly when, stripped, it is non-empty, not a comment and has an `=`; it splits at the first one. */
  lemma EnvLineMeaning(line: string)
    ensures var t := Trim(line);
            EnvLine(line).Some? <==> t != "" && t[0] != '#' && '=' in t
    ensures var t := Trim(line);
            EnvLine(line).Some? ==>
              exists k :: 0 <= k < |t| && t[k] == '=' && '=' !in t[..k] && EnvLine(line).value == (Trim(t[..k]), Trim(t[k + 1..]))
  {
    EnvPiecesMeaning(Trim(line));
  }

  /** The settings a file sets, later lines overriding earlier ones. */
  function EnvFile(lines: seq<string>): map<string, string> {
    Assign(lines, EnvLine)
  }

  /** `load_env`: the file's settings (none when there is no file), overridden by the process environment. */
  function Env(file: Option<seq<string>>, environ: map<string, string>): map<string, string> {
    (if file.Some? then EnvFile(file.value) else map[]) + environ
  }

  /** A key the environment does not set comes from the last file line that assigns it. */
  lemma EnvFromFile(lines: seq<string>, environ: map<string, string>, i: nat)
    requires i < |lines| && EnvLine(lines[i]).Some? && EnvLine(lines[i]).value.0 !in environ
    requires forall j :: i < j < |lines| ==> EnvLine(lines[j]).None? || EnvLine(lines[j]).value.0 != EnvLine(lines[i]).value.0
    ensures var kv := EnvLine(lines[i]).value;
            kv.0 in Env(Some(lines), environ) && Env(Some(lines), environ)[kv.0] == kv.1
  {
    AssignLastWins(lines, EnvLine, i);
  }

  /** A key is set exactly when the environment or some file line sets it. */
  lemma EnvKeys(lines: seq<string>, environ: map<string, string>)
    ensures forall k :: k in Env(Some(lines), environ) <==>
              k in environ || exists i :: 0 <= i < |lines| && EnvLine(lines[i]).Some? && EnvLine(lines[i]).value.0 == k
  {
    AssignKeys(lines, EnvLine);
  }

  /** `load_env`: the line loop, then `env.update(os.environ)`. */
  method LoadEnv(file: Option<seq<string>>, environ: map<string, string>) returns (env: map<string, string>)
    ensures env == Env(file, environ)
    ensures forall k :: k in environ ==> k in env && env[k] == environ[k]
  {
    env := map[];
    if file.Some? {
      var lines := file.value;
      for i := 0 to |lines|
        invariant env == EnvFile(lines[..i])
      {
        AssignSnoc(lines, EnvLine, i);
        var line := Trim(lines[i]);
        if line == "" || line[0] == '#' {
          continue;
        }
        if '=' in line {
          var k := IndexOf(line, '=');
          env := env[Trim(line[..k]) := Trim(line[k + 1..])];
        }
      }
      assert lines[..|lines|] == lines;
    }
    env := env + environ;
  }

  /** `ENV.get(key, "")`. */
  function Setting(env: map<string, string>, key: string): string {
    if key in env then env[key] else ""
  }

  /** `SUPABASE_URL`: the URL setting without its trailing slashes. */
  function SupabaseUrl(env: map<string, string>): (url: string)
    ensures StartsWith(Setting(env, "NEXT_PUBLIC_SUPABASE_URL"), url)
    ensures url == [] || url[|url| - 1] != '/'
  {
    TrimEndChar(Setting(env, "NEXT_PUBLIC_SUPABASE_URL"), '/')
  }

  /** `SUPABASE_KEY`: the service key when it is set and non-empty, else the anon key. */
  function SupabaseKey(env: map<string, string>): (key: string)
    ensures Setting(env, "SUPABASE_SERVICE_KEY") != "" ==> key == Setting(env, "SUPABASE_SERVICE_KEY")
    ensures Setting(env, "SUPABASE_SERVICE_KEY") == "" ==> key == Setting(env, "NEXT_PUBLIC_SUPABASE_ANON_KEY")
  {
    var service := Setting(env, "SUPABASE_SERVICE_KEY");
    if service != "" then service else Setting(env, "NEXT_PUBLIC_SUPABASE_ANON_KEY")
  }

  /** The script exits at once unless both the URL and a key are non-empty. */
  predicate CanStart(env: map<string, string>) {
    SupabaseUrl(env) != "" && SupabaseKey(env) != ""
  }

  /** A URL made only of slashes counts as missing. */
  lemma SlashesOnlyUrlIsMissing(env: map<string, string>)
    requires forall i :: 0 <= i < |Setting(env, "NEXT_PUBLIC_SUPABASE_URL")| ==> Setting(env, "NEXT_PUBLIC_SUPABASE_URL")[i] == '/'
    ensures !CanStart(env)
  {
  }

  // ------------------------------------------------------------ classifiers

  /** A rule of one pattern. */
  function On<T>(p: Pattern, result: T): Rule<T> {
    Rule([p], result)
  }

  function Cat(p: Pattern, category: string, sub: string): Rule<ImportAllEtfs.Taxon> {
    On(p, ImportAllEtfs.Taxon(category, sub))
  }

  /** The `map_category` chain in source order, tested on the lower-cased title. */
  const CATEGORY_RULES: seq<Rule<ImportAllEtfs.Taxon>> := [
    Cat(Lits(["bitcoin", "ethereum", "crypto", "blockchain", "digital asset"]), "Digital Assets", "Digital Assets"),
    Cat(Lits(["ultra pro", "ultrashort", "ultra short", "leveraged", "2x ", "3x ", "bull 3x", "bear 3x"]), "Leveraged", "Leveraged"),
    Cat(Lits(["inverse", "short s&p", "short nasdaq", "bear 1x", "bear 2x"]), "Leveraged", "Inverse"),
    Cat([Word("gold"), Word("silver"), Lit("precious metal")], "Commodities", "Precious Metals"),
    Cat([Word("oil"), Lit("natural gas"), Lit("commodit"), Lit("energy trust")], "Commodities", "Broad"),
    Cat([Lit("real estate"), Word("reit")], "Real Estate", "Diversified REIT"),
    Cat(Lits(["treasury", "government bond", "govt bond", "t-bill", "t-bond"]), "Fixed Income", "Treasury"),
    Cat(Lits(["high yield", "junk bond"]), "Fixed Income", "High Yield"),
    Cat(Lits(["muni", "municipal"]), "Fixed Income", "Municipal"),
    Cat(Lits(["corporate bond", "corp bond", "investment grade"]), "Fixed Income", "Corp Bond"),
    Cat([Lit("inflation"), Word("tips")], "Fixed Income", "Inflation-Protected"),
    Cat([Lit("aggregate bond"), Lit("total bond"), Lit("bond market"), Lit("bond fund"), Word("bond"), Lit("fixed income")],
        "Fixed Income", "Broad Bond"),
    Cat(Lits(["emerging market", "developing market"]), "International", "Emerging Markets"),
    Cat([Word("china"), Word("chinese")], "International", "China"),
    Cat([Word("japan"), Word("japanese")], "International", "Japan"),
    Cat([Word("europe"), Word("european")], "International", "Europe"),
    Cat([Word("india"), Word("indian")], "International", "India"),
    Cat([Lit("international"), Lit("foreign"), Lit("global"), Lit("world"), Word("eafe"), Lit("ex-us")],
        "International", "Developed Markets"),
    Cat(Lits(["semiconductor"]), "Sector", "Semiconductors"),
    Cat(Lits(["technology", "tech etf", "tech fund"]), "Sector", "Technology"),
    Cat(Lits(["biotech", "health care", "healthcare", "pharmaceutical", "medical"]), "Sector", "Health Care"),
    Cat(Lits(["financial", "banking sector"]), "Sector", "Financials"),
    Cat([Word("consumer")], "Sector", "Consumer"),
    Cat(Lits(["industrial"]), "Sector", "Industrials"),
    Cat([Lit("material"), Dotted("metals.mining")], "Sector", "Materials"),
    Cat(Lits(["utilit"]), "Sector", "Utilities"),
    Cat(Lits(["communication", "telecom"]), "Sector", "Comm. Services"),
    Cat([Word("esg"), Lit("sustainable"), Lit("socially responsible"), Lit("environmental")], "ESG", "ESG"),
    Cat(Lits(["dividend"]), "US Equity", "Dividend"),
    Cat([Dotted("small.cap"), Lit("russell 2000"), Lit("s&p smallcap"), Lit("small cap")], "US Equity", "Small Cap Blend"),
    Cat([Dotted("mid.cap"), Lit("russell midcap"), Lit("s&p midcap"), Lit("mid cap")], "US Equity", "Mid Cap Blend"),
    Cat([Dotted("large.cap"), Lit("s&p 500"), Lit("total market"), Lit("total stock"), Lit("total us")],
        "US Equity", "Large Cap Blend"),
    Cat([Word("growth")], "US Equity", "Large Cap Growth"),
    Cat([Word("value")], "US Equity", "Large Cap Value"),
    // `target.?date` is its two spellings: one character between the words, or none.
    Cat([Lit("allocation"), Lit("balanced"), Dotted("target.date"), Lit("targetdate"), Lit("retirement")],
        "Multi-Asset", "Allocation")
  ]

  /** `map_category`: the first rule that matches the lower-cased name, else plain US equity. */
  function MapCategory(rules: seq<Rule<ImportAllEtfs.Taxon>>, name: string): (t: ImportAllEtfs.Taxon)
    ensures (forall i :: 0 <= i < |rules| ==> !Fires(Lower(name), rules[i])) ==> t == ImportAllEtfs.Taxon("US Equity", "US Equity")
    ensures (exists i :: 0 <= i < |rules| && Fires(Lower(name), rules[i])) ==> FirstRule(rules, Lower(name)) == Some(t)
  {
    FirstRule(rules, Lower(name)).GetOr(ImportAllEtfs.Taxon("US Equity", "US Equity"))
  }

  /** Crypto names are Digital Assets whatever else they mention: the first rule of the chain. */
  lemma CryptoFirst(name: string)
    requires Contains(Lower(name), "bitcoin")
    ensures MapCategory(CATEGORY_RULES, name) == ImportAllEtfs.Taxon("Digital Assets", "Digital Assets")
  {
    var s := Lower(name);
    var p := Lits(["bitcoin", "ethereum", "crypto", "blockchain", "digital asset"]);
    LitMatches(s, "bitcoin");
    assert p[0] == Lit("bitcoin");
    MatchesSome(s, p, 0);
    assert Fires(s, CATEGORY_RULES[0]);
    FirstRuleAt(CATEGORY_RULES, s, 0);
  }

  const ETF_KEYWORDS := [
    "etf", "exchange-traded", "exchange traded", "etp",
    "ishares", "spdr", "proshares", "wisdomtree", "direxion",
    "invesco", "powershares", "graniteshares", "vaneck", "ark invest", "global x",
    "vanguard", "first trust", "flexshares", "xtrackers", "pacer",
    "amplify", "defiance", "simplify", "dimensional",
    "goldman sachs etf", "jpmorgan etf", "harbor etf", "pimco etf",
    "nuveen etf", "blackrock etf", "fidelity etf", "schwab etf"
  ]

  /** `any(kw in t for kw in keywords)`. */
  function ContainsAny(t: string, keywords: seq<string>): (b: bool)
    ensures b <==> exists i :: 0 <= i < |keywords| && Contains(t, keywords[i])
  {
    if keywords == [] then false
    else
      assert forall i :: 1 <= i < |keywords| ==> keywords[i] == keywords[1..][i - 1];
      Contains(t, keywords[0]) || ContainsAny(t, keywords[1..])
  }

  /** `is_etf`: the lower-cased title contains one of the keywords. */
  function IsEtf(title: string): (b: bool)
    ensures b <==> exists i :: 0 <= i < |ETF_KEYWORDS| && Contains(Lower(title), ETF_KEYWORDS[i])
  {
    ContainsAny(Lower(title), ETF_KEYWORDS)
  }

  function Brand(words: seq<string>, brand: string): Rule<string> {
    On(Lits(words), brand)
  }

  /** `ISSUER_PATTERNS`, in list order (`j\.p\.` is the literal text `j.p.`). */
  const ISSUER_PATTERNS: seq<Rule<string>> := [
    Brand(["ishares"], "BlackRock iShares"),
    Brand(["vanguard"], "Vanguard"),
    Brand(["spdr", "state street"], "State Street SPDR"),
    Brand(["invesco", "powershares"], "Invesco"),
    Brand(["proshares"], "ProShares"),
    Brand(["wisdomtree"], "WisdomTree"),
    Brand(["direxion"], "Direxion"),
    Brand(["vaneck"], "VanEck"),
    Brand(["ark invest", "ark etf"], "ARK Invest"),
    Brand(["global x"], "Global X"),
    Brand(["first trust"], "First Trust"),
    Brand(["dimensional"], "Dimensional"),
    Brand(["flexshares"], "FlexShares"),
    Brand(["xtrackers", "dws"], "Xtrackers"),
    Brand(["graniteshares"], "GraniteShares"),
    Brand(["amplify"], "Amplify"),
    Brand(["defiance"], "Defiance"),
    Brand(["simplify"], "Simplify"),
    Brand(["pacer"], "Pacer"),
    Brand(["goldman sachs"], "Goldman Sachs"),
    Brand(["jpmorgan", "j.p."], "JPMorgan"),
    Brand(["pimco"], "PIMCO"),
    Brand(["fidelity"], "Fidelity"),
    Brand(["schwab"], "Schwab"),
    Brand(["blackrock"], "BlackRock"),
    Brand(["nuveen"], "Nuveen"),
    Brand(["columbia"], "Columbia"),
    Brand(["harbor"], "Harbor")
  ]

  /** `extract_issuer`, specified: the brand of the first matching pattern, or `""`. */
  function IssuerOf(rules: seq<Rule<string>>, title: string): string {
    FirstRule(rules, Lower(title)).GetOr("")
  }

  /** `extract_issuer`: the pattern loop. */
  method ExtractIssuer(rules: seq<Rule<string>>, title: string) returns (brand: string)
    ensures brand == IssuerOf(rules, title)
    ensures (forall i :: 0 <= i < |rules| ==> !Fires(Lower(title), rules[i])) ==> brand == ""
  {
    var found := ScanRules(rules, Lower(title));
    brand := found.GetOr("");
  }

  /** An iShares title is BlackRock's, even when it also names another brand. */
  lemma IsharesFirst(title: string)
    requires Contains(Lower(title), "ishares")
    ensures IssuerOf(ISSUER_PATTERNS, title) == "BlackRock iShares"
  {
    var s := Lower(title);
    LitMatches(s, "ishares");
    assert Lits(["ishares"]) == [Lit("ishares")];
    assert Fires(s, ISSUER_PATTERNS[0]);
    FirstRuleAt(ISSUER_PATTERNS, s, 0);
  }

  // ------------------------------------------------------------ the registry

  /** A JSON scalar of a registry row. */
  datatype Cell = Str(s: string) | Num(n: nat) | Nil

  /** Python `str(cell)`. */
  function CellText(c: Cell): string {
    match c
    case Str(s) => s
    case Num(n) => NatToString(n)
    case Nil => "None"
  }

  /** Python truthiness: the empty text, zero and `None` are false. */
  predicate Truthy(c: Cell) {
    match c
    case Str(s) => s != ""
    case Num(n) => n != 0
    case Nil => false
  }

  /** `cell or ""`: a false cell becomes the empty text, any other cell is kept as it is. */
  function OrEmpty(c: Cell): Cell {
    if Truthy(c) then c else Str("")
  }

  /** A dictionary-valued entry of an object-map document; an absent key reads as the empty text. */
  datatype Entry = Entry(ticker: Cell, title: Cell, cikStr: Cell, exchange: Cell)

  /**
   * A downloaded registry: its `fields` and `data` arrays (empty when absent)
   * and its dictionary-valued entries in order, or a failed request, or a
   * document that is not an object.
   */
  datatype Download = Failed | NotObject | Object(fields: seq<string>, data: seq<seq<Cell>>, entries: seq<Entry>)

  predicate Columnar(d: Download)
    requires d.Object?
  {
    d.fields != [] && d.data != []
  }

  /** Every row has a cell at position `n`. */
  predicate Reach(rows: seq<seq<Cell>>, n: nat) {
    forall j :: 0 <= j < |rows| ==> n < |rows[j]|
  }

  lemma ReachStep(rows: seq<seq<Cell>>, n: nat, i: nat)
    requires i < |rows| && Reach(rows[..i], n) && n < |rows[i]|
    ensures Reach(rows[..i + 1], n)
  {
    assert forall j :: 0 <= j < i ==> rows[..i + 1][j] == rows[..i][j];
  }

  lemma ReachStop(rows: seq<seq<Cell>>, n: nat, i: nat)
    requires i < |rows| && |rows[i]| <= n
    ensures !Reach(rows, n)
  {
  }

  /** One title row as a dictionary assignment of `row[tt] or ""` (nothing for a row too short, which `Reach` rules out). */
  function TitleRow(ti: nat, tt: nat): seq<Cell> -> Option<(string, Cell)> {
    (row: seq<Cell>) => if ti < |row| && tt < |row| then Some((Upper(CellText(row[ti])), OrEmpty(row[tt]))) else None
  }

  /** `entry["ticker"].upper()` is reached for a truthy ticker, and raises unless it is text. */
  predicate TitleEntryReadable(e: Entry) {
    Truthy(e.ticker) ==> e.ticker.Str?
  }

  /** One object-map title entry: only an entry with a ticker assigns, and its title is kept as given. */
  function TitleEntry(e: Entry): Option<(string, Cell)> {
    if Truthy(e.ticker) && e.ticker.Str? then Some((Upper(e.ticker.s), e.title)) else None
  }

  /** The ticker -> title dictionary, `None` when reading it raises (a missing column, a short row or a non-text ticker). */
  function TitleMap(d: Download): (m: Option<map<string, Cell>>)
    requires !d.Failed?
  {
    if d.NotObject? then Some(map[])
    else if Columnar(d) then
      var ti, tt := IndexOf(d.fields, "ticker"), IndexOf(d.fields, "title");
      if ti == |d.fields| || tt == |d.fields| || !Reach(d.data, Max(ti, tt)) then None
      else Some(Assign(d.data, TitleRow(ti, tt)))
    else if forall j :: 0 <= j < |d.entries| ==> TitleEntryReadable(d.entries[j]) then Some(Assign(d.entries, TitleEntry))
    else None
  }

  lemma TitleRowStep(rows: seq<seq<Cell>>, ti: nat, tt: nat, i: nat, acc: map<string, Cell>)
    requires i < |rows| && ti < |rows[i]| && tt < |rows[i]|
    requires acc == Assign(rows[..i], TitleRow(ti, tt))
    ensures Assign(rows[..i + 1], TitleRow(ti, tt)) == acc[Upper(CellText(rows[i][ti])) := OrEmpty(rows[i][tt])]
  {
    AssignSnoc(rows, TitleRow(ti, tt), i);
  }

  /** The columnar title loop. */
  method ReadTitleRows(rows: seq<seq<Cell>>, ti: nat, tt: nat) returns (m: Option<map<string, Cell>>)
    ensures m.Some? <==> Reach(rows, Max(ti, tt))
    ensures m.Some? ==> m.value == Assign(rows, TitleRow(ti, tt))
  {
    var acc := map[];
    for i := 0 to |rows|
      invariant Reach(rows[..i], Max(ti, tt))
      invariant acc == Assign(rows[..i], TitleRow(ti, tt))
    {
      var row := rows[i];
      if |row| <= ti || |row| <= tt {
        ReachStop(rows, Max(ti, tt), i);
        return None;
      }
      ReachStep(rows, Max(ti, tt), i);
      var ticker, title := Upper(CellText(row[ti])), OrEmpty(row[tt]);
      TitleRowStep(rows, ti, tt, i, acc);
      acc := acc[ticker := title];
    }
    assert rows[..|rows|] == rows;
    m := Some(acc);
  }

  /** The object-map title loop: it raises at the first truthy ticker that is not text. */
  method ReadTitleEntries(entries: seq<Entry>) returns (m: Option<map<string, Cell>>)
    ensures m.Some? <==> forall j :: 0 <= j < |entries| ==> TitleEntryReadable(entries[j])
    ensures m.Some? ==> m.value == Assign(entries, TitleEntry)
  {
    var acc := map[];
    for i := 0 to |entries|
      invariant forall j :: 0 <= j < i ==> TitleEntryReadable(entries[j])
      invariant acc == Assign(entries[..i], TitleEntry)
    {
      assert entries[..i + 1][..i] == entries[..i];
      var e := entries[i];
      if Truthy(e.ticker) {
        if !e.ticker.Str? {
          assert !TitleEntryReadable(entries[i]);
          return None;
        }
        acc := acc[Upper(e.ticker.s) := e.title];
      }
    }
    assert entries[..|entries|] == entries;
    m := Some(acc);
  }

  /** A registry listing with its title cell (the empty text when the titles lack the ticker). */
  datatype Candidate = Candidate(ticker: string, cik: string, exchange: string, title: Cell)

  const VALID_EXCHANGES := {"Nasdaq", "NYSE", "NYSE MKT", "NYSE Arca", "CBOE"}

  /** `title_map.get(ticker, "")`. */
  function TitleFor(titles: map<string, Cell>, ticker: string): Cell {
    if ticker in titles then titles[ticker] else Str("")
  }

  /** A kept listing: a valid exchange, a non-empty upper-cased ticker, a CIK of at least 10 characters and the looked-up title. */
  predicate Listed(c: Candidate, titles: map<string, Cell>) {
    && c.exchange in VALID_EXCHANGES
    && c.ticker != "" && c.ticker == Upper(c.ticker)
    && |c.cik| >= 10
    && c.title == TitleFor(titles, c.ticker)
  }

  /** The listing of one exchange record. */
  function ListingOf(ticker: string, cik: Cell, exchange: string, titles: map<string, Cell>): (c: Candidate)
    ensures exchange in VALID_EXCHANGES && Upper(ticker) != "" ==> Listed(c, titles)
    ensures var s := CellText(cik); !(|s| > 0 && (s[0] == '+' || s[0] == '-')) ==> EndsWith(c.cik, s)
  {
    var t := Upper(ticker);
    UpperIdempotent(ticker);
    Candidate(t, ZFill(CellText(cik), 10), exchange, TitleFor(titles, t))
  }

  /** `exchange in VALID_EXCHANGES and ticker`: a text exchange in the valid set and a non-empty upper-cased ticker. */
  predicate Keeps(exchange: Cell, ticker: string) {
    exchange.Str? && exchange.s in VALID_EXCHANGES && Upper(ticker) != ""
  }

  /**
   * A columnar exchange row the loop reads without raising: the exchange and
   * ticker cells are read for every row, the CIK cell only for a kept one.
   */
  predicate RowReadable(row: seq<Cell>, ti: nat, ci: nat, ei: nat) {
    ti < |row| && ei < |row| && (Keeps(row[ei], CellText(row[ti])) ==> ci < |row|)
  }

  predicate RowsReadable(rows: seq<seq<Cell>>, ti: nat, ci: nat, ei: nat) {
    forall j :: 0 <= j < |rows| ==> RowReadable(rows[j], ti, ci, ei)
  }

  lemma ReadableStep(rows: seq<seq<Cell>>, ti: nat, ci: nat, ei: nat, i: nat)
    requires i < |rows| && RowsReadable(rows[..i], ti, ci, ei) && RowReadable(rows[i], ti, ci, ei)
    ensures RowsReadable(rows[..i + 1], ti, ci, ei)
  {
    var t := rows[..i + 1];
    forall j | 0 <= j < |t| ensures RowReadable(t[j], ti, ci, ei) {
      if j < i {
        assert t[j] == rows[..i][j];
      } else {
        assert t[j] == rows[i];
      }
    }
  }

  /** One columnar exchange row: a listing for a readable row that is kept. */
  function ListingRow(ti: nat, ci: nat, ei: nat, titles: map<string, Cell>): seq<Cell> -> Option<Candidate> {
    (row: seq<Cell>) =>
      if RowReadable(row, ti, ci, ei) && Keeps(row[ei], CellText(row[ti]))
      then Some(ListingOf(CellText(row[ti]), row[ci], row[ei].s, titles))
      else None
  }

  /** `entry.get("ticker", "").upper()` is reached for every entry, and raises unless the ticker is text. */
  predicate ListingEntryReadable(e: Entry) {
    e.ticker.Str?
  }

  predicate EntriesReadable(es: seq<Entry>) {
    forall j :: 0 <= j < |es| ==> ListingEntryReadable(es[j])
  }

  lemma EntriesReadableStep(es: seq<Entry>, i: nat)
    requires i < |es| && EntriesReadable(es[..i]) && ListingEntryReadable(es[i])
    ensures EntriesReadable(es[..i + 1])
  {
    var t := es[..i + 1];
    forall j | 0 <= j < |t| ensures ListingEntryReadable(t[j]) {
      if j < i {
        assert t[j] == es[..i][j];
      } else {
        assert t[j] == es[i];
      }
    }
  }

  /** One object-map exchange entry. */
  function ListingEntry(titles: map<string, Cell>): Entry -> Option<Candidate> {
    (e: Entry) =>
      if e.ticker.Str? && Keeps(e.exchange, e.ticker.s) then Some(ListingOf(e.ticker.s, e.cikStr, e.exchange.s, titles))
      else None
  }

  /** The exchange-listed tickers, `None` when reading them raises. */
  function Listings(d: Download, titles: map<string, Cell>): Option<seq<Candidate>>
    requires d.Object?
  {
    if Columnar(d) then
      var ti, ci, ei := IndexOf(d.fields, "ticker"), IndexOf(d.fields, "cik_str"), IndexOf(d.fields, "exchange");
      if ti == |d.fields| || ci == |d.fields| || ei == |d.fields| || !RowsReadable(d.data, ti, ci, ei) then None
      else Some(Collect(d.data, ListingRow(ti, ci, ei, titles)))
    else if EntriesReadable(d.entries) then Some(Collect(d.entries, ListingEntry(titles)))
    else None
  }

  /** Every listing of either shape is kept for a valid exchange and carries its title. */
  lemma ListingsAreListed(d: Download, titles: map<string, Cell>)
    requires d.Object? && Listings(d, titles).Some?
    ensures forall c :: c in Listings(d, titles).value ==> Listed(c, titles)
  {
    if Columnar(d) {
      var ti, ci, ei := IndexOf(d.fields, "ticker"), IndexOf(d.fields, "cik_str"), IndexOf(d.fields, "exchange");
      CollectMeaning(d.data, ListingRow(ti, ci, ei, titles));
    } else {
      CollectMeaning(d.entries, ListingEntry(titles));
    }
  }

  /** A short row that is not kept is skipped without reading its CIK cell. */
  lemma UnkeptShortRowSkipped(ti: nat, ci: nat, ei: nat, titles: map<string, Cell>, row: seq<Cell>)
    requires ti < |row| && ei < |row| && |row| <= ci && !Keeps(row[ei], CellText(row[ti]))
    ensures RowReadable(row, ti, ci, ei) && ListingRow(ti, ci, ei, titles)(row).None?
  {
  }

  /** The columnar exchange loop. */
  method ReadListingRows(rows: seq<seq<Cell>>, ti: nat, ci: nat, ei: nat, titles: map<string, Cell>)
    returns (cs: Option<seq<Candidate>>)
    ensures cs.Some? <==> RowsReadable(rows, ti, ci, ei)
    ensures cs.Some? ==> cs.value == Collect(rows, ListingRow(ti, ci, ei, titles))
  {
    var acc := [];
    for i := 0 to |rows|
      invariant RowsReadable(rows[..i], ti, ci, ei)
      invariant acc == Collect(rows[..i], ListingRow(ti, ci, ei, titles))
    {
      var row := rows[i];
      if |row| <= ei || |row| <= ti {
        assert !RowReadable(rows[i], ti, ci, ei);
        return None;
      }
      var exchange := row[ei];
      var ticker := Upper(CellText(row[ti]));
      CollectSnoc(rows, ListingRow(ti, ci, ei, titles), i);
      if exchange.Str? && exchange.s in VALID_EXCHANGES && ticker != "" {
        if |row| <= ci {
          assert !RowReadable(rows[i], ti, ci, ei);
          return None;
        }
        acc := acc + [ListingOf(CellText(row[ti]), row[ci], exchange.s, titles)];
      }
      ReadableStep(rows, ti, ci, ei, i);
    }
    assert rows[..|rows|] == rows;
    cs := Some(acc);
  }

  /** The object-map exchange loop: it raises at the first ticker that is not text. */
  method ReadListingEntries(entries: seq<Entry>, titles: map<string, Cell>) returns (cs: Option<seq<Candidate>>)
    ensures cs.Some? <==> EntriesReadable(entries)
    ensures cs.Some? ==> cs.value == Collect(entries, ListingEntry(titles))
  {
    var acc := [];
    for i := 0 to |entries|
      invariant EntriesReadable(entries[..i])
      invariant acc == Collect(entries[..i], ListingEntry(titles))
    {
      var e := entries[i];
      if !e.ticker.Str? {
        assert !ListingEntryReadable(entries[i]);
        return None;
      }
      CollectSnoc(entries, ListingEntry(titles), i);
      EntriesReadableStep(entries, i);
      var c := ListingEntry(titles)(e);
      if c.Some? {
        acc := acc + [c.value];
      }
    }
    assert entries[..|entries|] == entries;
    cs := Some(acc);
  }

  /** `fetch_edgar_tickers`, specified: `None` when a download fails or reading raises. */
  function EdgarTickers(titlesDoc: Download, exchangeDoc: Download): Option<seq<Candidate>> {
    if titlesDoc.Failed? || !exchangeDoc.Object? then None
    else
      var titles := TitleMap(titlesDoc);
      if titles.None? then None else Listings(exchangeDoc, titles.value)
  }

  /** `fetch_edgar_tickers`: the columnar shape when both `fields` and `data` are non-empty, else the object map. */
  method FetchEdgarTickers(titlesDoc: Download, exchangeDoc: Download) returns (cs: Option<seq<Candidate>>)
    ensures cs == EdgarTickers(titlesDoc, exchangeDoc)
    ensures cs.Some? ==>
              && !titlesDoc.Failed? && TitleMap(titlesDoc).Some?
              && forall c :: c in cs.value ==> Listed(c, TitleMap(titlesDoc).value)
  {
    if titlesDoc.Failed? || !exchangeDoc.Object? {
      return None;
    }
    var titles: map<string, Cell> := map[];
    if titlesDoc.Object? {
      if Columnar(titlesDoc) {
        var ti, tt := IndexOf(titlesDoc.fields, "ticker"), IndexOf(titlesDoc.fields, "title");
        if ti == |titlesDoc.fields| || tt == |titlesDoc.fields| {
          return None;
        }
        var m := ReadTitleRows(titlesDoc.data, ti, tt);
        if m.None? {
          return None;
        }
        titles := m.value;
      } else {
        var m := ReadTitleEntries(titlesDoc.entries);
        if m.None? {
          return None;
        }
        titles := m.value;
      }
    }
    assert TitleMap(titlesDoc) == Some(titles);
    if Columnar(exchangeDoc) {
      var fields := exchangeDoc.fields;
      var ti, ci, ei := IndexOf(fields, "ticker"), IndexOf(fields, "cik_str"), IndexOf(fields, "exchange");
      if ti == |fields| || ci == |fields| || ei == |fields| {
        return None;
      }
      cs := ReadListingRows(exchangeDoc.data, ti, ci, ei, titles);
    } else {
      cs := ReadListingEntries(exchangeDoc.entries, titles);
    }
    if cs.Some? {
      ListingsAreListed(exchangeDoc, titles);
    }
  }

  // ------------------------------------------------------------ rows

  /** A title `is_etf` is asked about (a truthy one) whose `.lower()` raises: it is not text. */
  predicate BadTitle(c: Cell) {
    Truthy(c) && !c.Str?
  }

  /** A candidate `filter_etfs` keeps: a non-empty text title that passes `is_etf`. */
  predicate EtfCandidate(c: Candidate) {
    c.title.Str? && c.title.s != "" && IsEtf(c.title.s)
  }

  /**
   * `filter_etfs`: the candidates with a non-empty title that passes
   * `is_etf`, or `None` when some truthy title is not text, so that
   * `title.lower()` raises.
   */
  function FilterEtfs(cs: seq<Candidate>): (kept: Option<seq<Candidate>>)
    ensures kept.None? <==> exists i :: 0 <= i < |cs| && BadTitle(cs[i].title)
    ensures kept.Some? ==> forall c :: c in kept.value <==> c in cs && EtfCandidate(c)
    ensures kept.Some? ==> forall i :: 0 <= i < |kept.value| ==> kept.value[i].title.Str? && kept.value[i].title.s != ""
    ensures kept.Some? ==> multiset(kept.value) <= multiset(cs)
  {
    if exists i :: 0 <= i < |cs| && BadTitle(cs[i].title) then None
    else
      FilterMembers(cs, EtfCandidate);
      Some(Filter(cs, EtfCandidate))
  }

  /** Every title is text, as `map_category` and `extract_issuer` need: they lower-case it. */
  predicate TextTitles(cs: seq<Candidate>) {
    forall i :: 0 <= i < |cs| ==> cs[i].title.Str?
  }

  /** A row of the `etfs` upsert (the update time is the clock's and is left out). */
  datatype Row = Row(ticker: string, name: string, issuer: string, category: string, subCategory: string,
                     exchange: string, cik: string)

  /**
   * The row of one candidate: ticker and CIK kept, named by its title (or its
   * ticker when the title is empty), with the issuer, category and exchange
   * its title and exchange give.
   */
  function RowOf(categories: seq<Rule<ImportAllEtfs.Taxon>>, issuers: seq<Rule<string>>, c: Candidate): Row
    requires c.title.Str?
  {
    var title := c.title.s;
    var t := MapCategory(categories, title);
    Row(c.ticker, if title != "" then title else c.ticker, IssuerOf(issuers, title),
        t.category, t.subCategory, ImportAllEtfs.MapExchange("", c.exchange), c.cik)
  }

  /** The body of the `build_rows` loop: one candidate's row. */
  method BuildRow(categories: seq<Rule<ImportAllEtfs.Taxon>>, issuers: seq<Rule<string>>, c: Candidate)
    returns (r: Row)
    requires c.title.Str?
    ensures r == RowOf(categories, issuers, c)
  {
    var title := c.title.s;
    var t := MapCategory(categories, title);
    var issuer := ExtractIssuer(issuers, title);
    r := Row(c.ticker, if title != "" then title else c.ticker, issuer,
             t.category, t.subCategory, ImportAllEtfs.MapExchange("", c.exchange), c.cik);
  }

  /** Appending the next candidate's row keeps every row that of its candidate. */
  lemma RowsSnoc(categories: seq<Rule<ImportAllEtfs.Taxon>>, issuers: seq<Rule<string>>, cs: seq<Candidate>, rows: seq<Row>, r: Row)
    requires TextTitles(cs) && |rows| < |cs|
    requires forall j :: 0 <= j < |rows| ==> rows[j] == RowOf(categories, issuers, cs[j])
    requires r == RowOf(categories, issuers, cs[|rows|])
    ensures forall j :: 0 <= j <= |rows| ==> (rows + [r])[j] == RowOf(categories, issuers, cs[j])
  {
    forall j | 0 <= j <= |rows| ensures (rows + [r])[j] == RowOf(categories, issuers, cs[j]) {
      if j < |rows| {
        assert (rows + [r])[j] == rows[j];
      }
    }
  }

  /** `build_rows`: one row per candidate, in order (the candidates `filter_etfs` kept, all with text titles). */
  method BuildRows(categories: seq<Rule<ImportAllEtfs.Taxon>>, issuers: seq<Rule<string>>, cs: seq<Candidate>)
    returns (rows: seq<Row>)
    requires TextTitles(cs)
    ensures |rows| == |cs|
    ensures forall i :: 0 <= i < |cs| ==> rows[i] == RowOf(categories, issuers, cs[i])
  {
    rows := [];
    for i := 0 to |cs|
      invariant |rows| == i
      invariant forall j :: 0 <= j < i ==> rows[j] == RowOf(categories, issuers, cs[j])
    {
      var r := BuildRow(categories, issuers, cs[i]);
      RowsSnoc(categories, issuers, cs, rows, r);
      rows := rows + [r];
    }
  }

  /** Rows of ETF candidates are named after their titles. */
  lemma CandidateRowsNamedByTitle(categories: seq<Rule<ImportAllEtfs.Taxon>>, issuers: seq<Rule<string>>, cs: seq<Candidate>)
    requires FilterEtfs(cs).Some?
    ensures forall c :: c in FilterEtfs(cs).value ==> c.title.Str? && RowOf(categories, issuers, c).name == c.title.s
  {
  }

  /** `filter_etfs(fetch_edgar_tickers())`: `None` when either raises. */
  function Candidates(titlesDoc: Download, exchangeDoc: Download): Option<seq<Candidate>> {
    var tickers := EdgarTickers(titlesDoc, exchangeDoc);
    if tickers.None? then None else FilterEtfs(tickers.value)
  }

  /** A numeric title on a listed ticker stops the script, even when every row and entry could be read. */
  lemma NumericTitleRaises(titlesDoc: Download, exchangeDoc: Download, i: nat)
    requires EdgarTickers(titlesDoc, exchangeDoc).Some?
    requires i < |EdgarTickers(titlesDoc, exchangeDoc).value|
    requires EdgarTickers(titlesDoc, exchangeDoc).value[i].title.Num?
    requires EdgarTickers(titlesDoc, exchangeDoc).value[i].title.n != 0
    ensures Candidates(titlesDoc, exchangeDoc).None?
  {
    assert BadTitle(EdgarTickers(titlesDoc, exchangeDoc).value[i].title);
  }

  // ------------------------------------------------------------ the run

  datatype Report =
    | Exited                        // missing URL or key: exit status 1 before any download
    | Raised                        // a download failed, the registry could not be read or a title is not text
    | Done(candidates: seq<Candidate>, rows: seq<Row>, total: nat, errors: nat, ok: bool)

  /**
   * The script's main line up to the `etfs` upsert.  `envFile` holds the
   * lines of `.env.local` when it exists; `write` says whether a batch of
   * 500 was stored.
   */
  method Run(envFile: Option<seq<string>>, environ: map<string, string>, titlesDoc: Download, exchangeDoc: Download,
             write: seq<Row> -> bool)
    returns (report: Report)
    ensures report.Exited? <==> !CanStart(Env(envFile, environ))
    ensures report.Raised? <==> CanStart(Env(envFile, environ)) && Candidates(titlesDoc, exchangeDoc).None?
    ensures report.Done? ==>
              && Candidates(titlesDoc, exchangeDoc).Some?
              && report.candidates == Candidates(titlesDoc, exchangeDoc).value
              && TextTitles(report.candidates)
              && |report.rows| == |report.candidates|
              && (forall i :: 0 <= i < |report.rows| ==> report.rows[i] == RowOf(CATEGORY_RULES, ISSUER_PATTERNS, report.candidates[i]))
              && report.total == WrittenRows(Chunked(report.rows, BATCH), write)
              && report.errors == FailedBatches(Chunked(report.rows, BATCH), write)
              && report.total <= |report.rows|
              && (report.ok <==> report.errors == 0)
              && (report.ok ==> report.total == |report.rows|)
  {
    var env := LoadEnv(envFile, environ);
    if !CanStart(env) {
      return Exited;
    }
    var tickers := FetchEdgarTickers(titlesDoc, exchangeDoc);
    if tickers.None? {
      return Raised;
    }
    var kept := FilterEtfs(tickers.value);
    if kept.None? {
      return Raised;
    }
    var candidates := kept.value;
    var rows := BuildRows(CATEGORY_RULES, ISSUER_PATTERNS, candidates);
    var batches, total, errors := WriteBatches(rows, BATCH, write);
    report := Done(candidates, rows, total, errors, errors == 0);
  }
}
