/** `get_storage_accounts` (client.py): pages through the indexer's account listing
    for one application and keeps the accounts that have opted into the manager with
    a user-address field in their local state. */
module ClientAccounts {
  import opened Wrappers
  import opened Ledger
  import opened ManagerReader
  import opened ClientMarkets
  import CS = ContractStrings

  /** One element of the result: the whole listed record when `verbose`, else its address. */
  datatype AccountEntry = Verbose(account: ListedAccount) | Plain(address: Address)

  function Entry(a: ListedAccount, verbose: bool): AccountEntry {
    if verbose then Verbose(a) else Plain(a.address)
  }

  /** `account.get("apps-local-state", [])`. */
  function LocalsOf(a: ListedAccount): seq<AppLocalState> {
    if a.appsLocalState.Some? then a.appsLocalState.value else []
  }

  /** The application whose accounts are listed: the first active market's (in the
      market dict's order), or the named staking contract's manager. */
  function QueriedApp(c: Client, stakingContractName: Option<string>): (r: Result<AppId, Error>)
    requires c.Valid()
    ensures stakingContractName.None? ==>
      (r == Failure(NoActiveMarkets) <==> ActiveMarketSymbols(c) == [])
      && (r.Success? ==> r.value == c.markets[ActiveMarketSymbols(c)[0]].appId)
    ensures stakingContractName.Some? ==>
      (r.Success? <==> stakingContractName.value in c.stakingContracts)
      && (r.Success? ==> r.value == c.stakingContracts[stakingContractName.value].managerAppId)
      && (r.Failure? ==> r.error == UnknownStakingContract(stakingContractName.value))
  {
    match stakingContractName
    case None =>
      var syms := ActiveMarketSymbols(c);
      if syms == [] then Failure(NoActiveMarkets) else Success(c.markets[syms[0]].appId)
    case Some(name) =>
      if name in c.stakingContracts then Success(c.stakingContracts[name].managerAppId)
      else Failure(UnknownStakingContract(name))
  }

  // ----- the filter, as counts of matching (local state, field) pairs -----

  /** How many fields of a local state carry the user-address key. */
  function FieldMatches(fields: seq<KeyValue>, key: string): nat {
    if fields == [] then 0
    else FieldMatches(fields[..|fields| - 1], key) + (if fields[|fields| - 1].key == Some(key) then 1 else 0)
  }

  /** How many (local state of the manager, user-address field) pairs an account has;
      the source appends the account once per pair. */
  function LocalMatches(locals: seq<AppLocalState>, managerAppId: AppId, key: string): nat {
    if locals == [] then 0
    else LocalMatches(locals[..|locals| - 1], managerAppId, key)
         + (if locals[|locals| - 1].id == managerAppId then FieldMatches(locals[|locals| - 1].keyValue, key) else 0)
  }

  function Repeat(a: ListedAccount, n: nat): (r: seq<ListedAccount>)
    ensures |r| == n && forall x | x in r :: x == a
  {
    if n == 0 then [] else Repeat(a, n - 1) + [a]
  }

  /** `accounts_filtered` for one page. */
  function Filtered(accounts: seq<ListedAccount>, managerAppId: AppId, key: string): seq<ListedAccount> {
    if accounts == [] then []
    else Filtered(accounts[..|accounts| - 1], managerAppId, key)
         + Repeat(accounts[|accounts| - 1], LocalMatches(LocalsOf(accounts[|accounts| - 1]), managerAppId, key))
  }

  function Entries(accounts: seq<ListedAccount>, verbose: bool): (r: seq<AccountEntry>)
    ensures |r| == |accounts| && forall i | 0 <= i < |r| :: r[i] == Entry(accounts[i], verbose)
  {
    seq(|accounts|, i requires 0 <= i < |accounts| => Entry(accounts[i], verbose))
  }

  /** The entries collected from a run of pages. */
  function Collected(pages: seq<Page>, managerAppId: AppId, key: string, verbose: bool): seq<AccountEntry> {
    if pages == [] then []
    else Collected(pages[..|pages| - 1], managerAppId, key, verbose)
         + Entries(Filtered(pages[|pages| - 1].accounts, managerAppId, key), verbose)
  }

  /** The listing ends: some page comes without a `next-token`. */
  predicate Terminates(pages: seq<Page>) {
    exists k | 0 <= k < |pages| :: pages[k].nextToken.None?
  }

  /** The index of the last page requested: the first without a `next-token`. */
  function LastPage(pages: seq<Page>): (k: nat)
    requires Terminates(pages)
    ensures k < |pages| && pages[k].nextToken.None?
    ensures forall m | 0 <= m < k :: pages[m].nextToken.Some?
  {
    if pages[0].nextToken.None? then 0
    else
      assert Terminates(pages[1..]) by {
        var k :| 0 <= k < |pages| && pages[k].nextToken.None?;
        assert pages[1..][k - 1] == pages[k];
      }
      var k := 1 + LastPage(pages[1..]);
      assert forall m | 1 <= m < k :: pages[m] == pages[1..][m - 1];
      k
  }

  /** The user-address key as it appears in the indexer's output. */
  function UserAddressKey(sdk: Sdk): string {
    sdk.b64encodeText(CS.USER_ADDRESS)
  }

  /** What `get_storage_accounts` returns: the entries of every page up to and including
      the first page without a `next-token`. */
  function StorageAccountsOf(c: Client, sdk: Sdk, listing: AppId -> seq<Page>,
                             stakingContractName: Option<string>, verbose: bool): Result<seq<AccountEntry>, Error>
    requires c.Valid()
    requires QueriedApp(c, stakingContractName).Success? ==> Terminates(listing(QueriedApp(c, stakingContractName).value))
  {
    match QueriedApp(c, stakingContractName)
    case Failure(e) => Failure(e)
    case Success(appId) =>
      var pages := listing(appId);
      Success(Collected(pages[..LastPage(pages) + 1], c.manager.appId, UserAddressKey(sdk), verbose))
  }

  /** `get_storage_accounts`. `listing(app)` is the sequence of pages the indexer answers
      for `accounts(application_id=app, ...)`, the k-th request receiving the k-th page. */
  method GetStorageAccounts(c: Client, sdk: Sdk, listing: AppId -> seq<Page>,
                            stakingContractName: Option<string>, verbose: bool)
    returns (r: Result<seq<AccountEntry>, Error>)
    requires c.Valid()
    requires QueriedApp(c, stakingContractName).Success? ==> Terminates(listing(QueriedApp(c, stakingContractName).value))
    ensures r == StorageAccountsOf(c, sdk, listing, stakingContractName, verbose)
  {
    var userAddress := UserAddressKey(sdk);
    var app := QueriedApp(c, stakingContractName);
    if app.Failure? {
      return Failure(app.error);
    }
    var pages := listing(app.value);
    var collected := CollectPages(pages, LastPage(pages), c.manager.appId, userAddress, verbose);
    return Success(collected);
  }

  /** The paging loop of `get_storage_accounts`: requests pages until one comes without
      a `next-token`, which is page `last`. */
  method CollectPages(pages: seq<Page>, ghost last: nat, managerAppId: AppId, userAddress: string, verbose: bool)
    returns (accounts: seq<AccountEntry>)
    requires last < |pages| && pages[last].nextToken.None?
    requires forall m | 0 <= m < last :: pages[m].nextToken.Some?
    ensures accounts == Collected(pages[..last + 1], managerAppId, userAddress, verbose)
  {
    accounts := [];
    var nextPage: Option<string> := Some("");
    var k := 0;
    while nextPage.Some?
      invariant 0 <= k <= last + 1
      invariant nextPage.Some? <==> k <= last
      invariant accounts == Collected(pages[..k], managerAppId, userAddress, verbose)
      decreases last + 1 - k
    {
      var accountData := pages[k];
      var filtered := FilterPage(accountData.accounts, managerAppId, userAddress);
      CollectedStep(pages, k, managerAppId, userAddress, verbose);
      accounts := accounts + Entries(filtered, verbose);
      nextPage := accountData.nextToken;
      k := k + 1;
    }
  }

  /** Collecting one page more appends that page's entries. */
  lemma CollectedStep(pages: seq<Page>, k: nat, managerAppId: AppId, key: string, verbose: bool)
    requires k < |pages|
    ensures Collected(pages[..k + 1], managerAppId, key, verbose)
         == Collected(pages[..k], managerAppId, key, verbose) + Entries(Filtered(pages[k].accounts, managerAppId, key), verbose)
  {
    assert pages[..k + 1][..k] == pages[..k];
  }

  /** The filtering loops of one page. */
  method FilterPage(accounts: seq<ListedAccount>, managerAppId: AppId, userAddress: string)
    returns (filtered: seq<ListedAccount>)
    ensures filtered == Filtered(accounts, managerAppId, userAddress)
  {
    filtered := [];
    for i := 0 to |accounts|
      invariant filtered == Filtered(accounts[..i], managerAppId, userAddress)
    {
      filtered := FilterAccount(filtered, accounts[i], managerAppId, userAddress);
      assert accounts[..i + 1][..i] == accounts[..i];
    }
    assert accounts[..|accounts|] == accounts;
  }

  /** The loop over one account's local states: appends the account once per match. */
  method FilterAccount(filtered: seq<ListedAccount>, account: ListedAccount, managerAppId: AppId, userAddress: string)
    returns (r: seq<ListedAccount>)
    ensures r == filtered + Repeat(account, LocalMatches(LocalsOf(account), managerAppId, userAddress))
  {
    r := filtered;
    var userLocalState := LocalsOf(account);
    for j := 0 to |userLocalState|
      invariant r == filtered + Repeat(account, LocalMatches(userLocalState[..j], managerAppId, userAddress))
    {
      var appLocalState := userLocalState[j];
      assert userLocalState[..j + 1][..j] == userLocalState[..j];
      if appLocalState.id == managerAppId {
        r := FilterFields(r, filtered, account, LocalMatches(userLocalState[..j], managerAppId, userAddress),
                          appLocalState.keyValue, userAddress);
      }
    }
    assert userLocalState[..|userLocalState|] == userLocalState;
  }

  /** The loop over one local state's fields. */
  method FilterFields(acc: seq<ListedAccount>, ghost base: seq<ListedAccount>, account: ListedAccount, ghost n: nat,
                      fields: seq<KeyValue>, userAddress: string)
    returns (r: seq<ListedAccount>)
    requires acc == base + Repeat(account, n)
    ensures r == base + Repeat(account, n + FieldMatches(fields, userAddress))
  {
    r := acc;
    for l := 0 to |fields|
      invariant r == base + Repeat(account, n + FieldMatches(fields[..l], userAddress))
    {
      assert fields[..l + 1][..l] == fields[..l];
      if fields[l].key == Some(userAddress) {
        r := r + [account];
      }
    }
    assert fields[..|fields|] == fields;
  }

  // ----- which accounts are storage accounts -----

  /** The field test of the source, as a property of one local state. */
  predicate HasUserKey(l: AppLocalState, key: string) {
    exists i | 0 <= i < |l.keyValue| :: l.keyValue[i].key == Some(key)
  }

  /** An account the source keeps: a local state of the manager with a user-address field. */
  predicate IsStorageAccount(a: ListedAccount, managerAppId: AppId, key: string) {
    exists j | 0 <= j < |LocalsOf(a)| :: LocalsOf(a)[j].id == managerAppId && HasUserKey(LocalsOf(a)[j], key)
  }

  lemma {:induction false} FieldMatchesPositive(fields: seq<KeyValue>, key: string)
    ensures FieldMatches(fields, key) > 0 <==> exists i | 0 <= i < |fields| :: fields[i].key == Some(key)
  {
    if fields != [] {
      var init := fields[..|fields| - 1];
      FieldMatchesPositive(init, key);
      if FieldMatches(init, key) > 0 {
        var i :| 0 <= i < |init| && init[i].key == Some(key);
        assert fields[i] == init[i];
      }
      if exists i | 0 <= i < |fields| :: fields[i].key == Some(key) {
        var i :| 0 <= i < |fields| && fields[i].key == Some(key);
        if i < |init| {
          assert init[i] == fields[i];
        }
      }
    }
  }

  lemma {:induction false} LocalMatchesPositive(locals: seq<AppLocalState>, managerAppId: AppId, key: string)
    ensures LocalMatches(locals, managerAppId, key) > 0
        <==> exists j | 0 <= j < |locals| :: locals[j].id == managerAppId && HasUserKey(locals[j], key)
  {
    if locals != [] {
      var init := locals[..|locals| - 1];
      var last := locals[|locals| - 1];
      LocalMatchesPositive(init, managerAppId, key);
      FieldMatchesPositive(last.keyValue, key);
      if LocalMatches(init, managerAppId, key) > 0 {
        var j :| 0 <= j < |init| && init[j].id == managerAppId && HasUserKey(init[j], key);
        assert locals[j] == init[j];
      }
      if exists j | 0 <= j < |locals| :: locals[j].id == managerAppId && HasUserKey(locals[j], key) {
        var j :| 0 <= j < |locals| && locals[j].id == managerAppId && HasUserKey(locals[j], key);
        if j < |init| {
          assert init[j] == locals[j];
        }
      }
    }
  }

  /** One page's filter keeps exactly its storage accounts. */
  lemma {:induction false} FilteredMembers(accounts: seq<ListedAccount>, managerAppId: AppId, key: string)
    ensures forall a :: a in Filtered(accounts, managerAppId, key)
                        <==> a in accounts && IsStorageAccount(a, managerAppId, key)
  {
    if accounts != [] {
      var init := accounts[..|accounts| - 1];
      var last := accounts[|accounts| - 1];
      FilteredMembers(init, managerAppId, key);
      LocalMatchesPositive(LocalsOf(last), managerAppId, key);
      assert accounts == init + [last];
      var rep := Repeat(last, LocalMatches(LocalsOf(last), managerAppId, key));
      assert IsStorageAccount(last, managerAppId, key) ==> last in rep by {
        if IsStorageAccount(last, managerAppId, key) {
          assert rep[|rep| - 1] == last;
        }
      }
    }
  }

  /** `e` is the entry of a storage account listed on `page`. */
  predicate PageLists(page: Page, e: AccountEntry, managerAppId: AppId, key: string, verbose: bool) {
    exists a | a in page.accounts :: IsStorageAccount(a, managerAppId, key) && e == Entry(a, verbose)
  }

  /** One page contributes exactly the entries of its storage accounts. */
  lemma {:induction false} PageEntriesMembers(page: Page, managerAppId: AppId, key: string, verbose: bool, e: AccountEntry)
    ensures e in Entries(Filtered(page.accounts, managerAppId, key), verbose)
            <==> PageLists(page, e, managerAppId, key, verbose)
  {
    var f := Filtered(page.accounts, managerAppId, key);
    FilteredMembers(page.accounts, managerAppId, key);
    EntriesMembers(f, verbose, e);
  }

  /** The entries of a list of accounts are the entries of its members. */
  lemma EntriesMembers(f: seq<ListedAccount>, verbose: bool, e: AccountEntry)
    ensures e in Entries(f, verbose) <==> exists a | a in f :: e == Entry(a, verbose)
  {
    var es := Entries(f, verbose);
    if e in es {
      var i :| 0 <= i < |es| && es[i] == e;
      assert f[i] in f;
    }
    if exists a | a in f :: e == Entry(a, verbose) {
      var a :| a in f && e == Entry(a, verbose);
      var i :| 0 <= i < |f| && f[i] == a;
      assert es[i] == e;
    }
  }

  /** `e` is the entry of a storage account listed on one of `pages`. */
  predicate ListedOn(pages: seq<Page>, e: AccountEntry, managerAppId: AppId, key: string, verbose: bool) {
    exists m | 0 <= m < |pages| :: PageLists(pages[m], e, managerAppId, key, verbose)
  }

  lemma ListedOnSplit(pages: seq<Page>, e: AccountEntry, managerAppId: AppId, key: string, verbose: bool)
    requires pages != []
    ensures ListedOn(pages, e, managerAppId, key, verbose)
            <==> ListedOn(pages[..|pages| - 1], e, managerAppId, key, verbose)
                 || PageLists(pages[|pages| - 1], e, managerAppId, key, verbose)
  {
    var init := pages[..|pages| - 1];
    if ListedOn(pages, e, managerAppId, key, verbose) {
      var m :| 0 <= m < |pages| && PageLists(pages[m], e, managerAppId, key, verbose);
      if m < |init| {
        assert init[m] == pages[m];
      }
    }
    if ListedOn(init, e, managerAppId, key, verbose) {
      var m :| 0 <= m < |init| && PageLists(init[m], e, managerAppId, key, verbose);
      assert init[m] == pages[m];
    }
  }

  /** Soundness and completeness: the result holds an entry exactly for each storage
      account listed on a requested page. */
  lemma {:induction false} CollectedMembers(pages: seq<Page>, managerAppId: AppId, key: string, verbose: bool, e: AccountEntry)
    ensures e in Collected(pages, managerAppId, key, verbose) <==> ListedOn(pages, e, managerAppId, key, verbose)
  {
    if pages != [] {
      CollectedMembers(pages[..|pages| - 1], managerAppId, key, verbose, e);
      PageEntriesMembers(pages[|pages| - 1], managerAppId, key, verbose, e);
      ListedOnSplit(pages, e, managerAppId, key, verbose);
    }
  }

  /** What `get_storage_accounts` returns, in the source's terms: an entry for an account
      iff that account is listed on a page up to the first without a `next-token` and holds
      a user-address field in its local state for the manager. */
  lemma {:induction false} StorageAccountsMembers(c: Client, sdk: Sdk, listing: AppId -> seq<Page>,
                               stakingContractName: Option<string>, verbose: bool, e: AccountEntry)
    requires c.Valid()
    requires QueriedApp(c, stakingContractName).Success?
    requires Terminates(listing(QueriedApp(c, stakingContractName).value))
    ensures var pages := listing(QueriedApp(c, stakingContractName).value);
      e in StorageAccountsOf(c, sdk, listing, stakingContractName, verbose).value
      <==> exists m | 0 <= m <= LastPage(pages) :: PageLists(pages[m], e, c.manager.appId, UserAddressKey(sdk), verbose)
  {
    VisitedMembers(listing(QueriedApp(c, stakingContractName).value), c.manager.appId, UserAddressKey(sdk), verbose, e);
  }

  /** The pages up to the first without a `next-token` list exactly the entries collected from them. */
  lemma {:induction false} VisitedMembers(pages: seq<Page>, managerAppId: AppId, key: string, verbose: bool, e: AccountEntry)
    requires Terminates(pages)
    ensures e in Collected(pages[..LastPage(pages) + 1], managerAppId, key, verbose)
            <==> exists m | 0 <= m <= LastPage(pages) :: PageLists(pages[m], e, managerAppId, key, verbose)
  {
    var visited := pages[..LastPage(pages) + 1];
    CollectedMembers(visited, managerAppId, key, verbose, e);
    assert forall m | 0 <= m <= LastPage(pages) :: visited[m] == pages[m];
  }
}
