/** Token-program detection and the transfer-hook account list of the SDK
    (`sdk/src/utils/token.ts`). The mint account the RPC node returns is an
    input (`None` when the account does not exist), and program-derived
    address search is an opaque function of the seeds and the program,
    `None` where it throws. */
module TokenHooks {
  import opened Base

  /** The mint account as fetched: its owner program, whether its data
      decodes as a mint, and the program id of its transfer-hook extension
      when it has one. */
  datatype MintAccount = MintAccount(owner: Pubkey, unpacks: bool, transferHook: Option<Pubkey>)

  /** The decoded mint, as far as this code reads it. */
  datatype MintInfo = MintInfo(transferHook: Option<Pubkey>)

  /** Why a lookup throws. */
  datatype LookupError = MintAccountNotFound | TokenAccountNotFound | InvalidAccountOwner | InvalidAccountData

  /** An entry of an instruction's account list. */
  datatype AccountMeta = AccountMeta(pubkey: Pubkey, isSigner: bool, isWritable: bool)

  /** A seed of a program-derived address: literal bytes or an address. */
  datatype Seed = Literal(text: string) | Key(address: Pubkey)

  /** `PublicKey.findProgramAddressSync`. */
  type Deriver = (seq<Seed>, Pubkey) -> Option<Pubkey>

  const EXTRA_ACCOUNT_METAS_SEED: string := "extra-account-metas"
  const COUNTER_SEED: string := "counter"

  lemma ProgramIdsDiffer()
    ensures TOKEN_PROGRAM_ID != TOKEN_2022_PROGRAM_ID
  {
    assert TOKEN_PROGRAM_ID[5] != TOKEN_2022_PROGRAM_ID[5];
  }

  /** `getTokenProgramId`: Token-2022 when the mint is owned by it, the
      classic token program for any other owner; throws when the mint
      account is missing. */
  function GetTokenProgramId(account: Option<MintAccount>): (r: Result<Pubkey, LookupError>)
    ensures r.Err? <==> account.None?
  {
    match account
    case None => Err(MintAccountNotFound)
    case Some(info) => if info.owner == TOKEN_2022_PROGRAM_ID then Ok(TOKEN_2022_PROGRAM_ID) else Ok(TOKEN_PROGRAM_ID)
  }

  /** `isToken2022`. */
  function IsToken2022(info: MintAccount): bool {
    info.owner == TOKEN_2022_PROGRAM_ID
  }

  /** The program id `getTokenProgramId` picks is Token-2022 exactly for the
      mints `isToken2022` accepts, and the classic program otherwise. */
  lemma ProgramIdFollowsOwner(info: MintAccount)
    ensures GetTokenProgramId(Some(info)) == Ok(TOKEN_2022_PROGRAM_ID) <==> IsToken2022(info)
    ensures !IsToken2022(info) ==> GetTokenProgramId(Some(info)) == Ok(TOKEN_PROGRAM_ID)
  {
    ProgramIdsDiffer();
  }

  /** `getMint` of `@solana/spl-token` for a given token program: the
      account must exist, be owned by that program and decode as a mint. */
  function GetMint(account: Option<MintAccount>, programId: Pubkey): (r: Result<MintInfo, LookupError>)
    ensures r.Ok? <==> account.Some? && account.value.owner == programId && account.value.unpacks
    ensures r.Ok? ==> r.value.transferHook == account.value.transferHook
  {
    match account
    case None => Err(TokenAccountNotFound)
    case Some(info) =>
      if info.owner != programId then Err(InvalidAccountOwner)
      else if !info.unpacks then Err(InvalidAccountData)
      else Ok(MintInfo(info.transferHook))
  }

  /** `getMintInfo`: `getMint` under the program `getTokenProgramId` picks. */
  function GetMintInfo(account: Option<MintAccount>): Result<MintInfo, LookupError> {
    match GetTokenProgramId(account)
    case Err(e) => Err(e)
    case Ok(programId) => GetMint(account, programId)
  }

  /** The mint decodes exactly when it exists, is owned by one of the two
      token programs and its data is a mint. */
  lemma MintInfoFound(account: Option<MintAccount>)
    ensures GetMintInfo(account).Ok? <==>
              && account.Some? && account.value.unpacks
              && (account.value.owner == TOKEN_PROGRAM_ID || account.value.owner == TOKEN_2022_PROGRAM_ID)
  {
    ProgramIdsDiffer();
  }

  /** The hook program of a decodable Token-2022 mint, if it has one. */
  function TransferHookProgram(account: Option<MintAccount>): Option<Pubkey> {
    match GetMintInfo(account)
    case Err(_) => None
    case Ok(mint) => if GetTokenProgramId(account) != Ok(TOKEN_2022_PROGRAM_ID) then None else mint.transferHook
  }

  /** The accounts behind the hook program: the extra-account-metas address
      of the mint, then the counter address, each only when its derivation
      succeeds, and the counter only after the extra-account-metas one. */
  function DerivedHookAccounts(mintAddress: Pubkey, hook: Pubkey, derive: Deriver): seq<AccountMeta> {
    match derive([Literal(EXTRA_ACCOUNT_METAS_SEED), Key(mintAddress)], hook)
    case None => []
    case Some(extra) =>
      [AccountMeta(extra, false, false)] +
      match derive([Literal(COUNTER_SEED)], hook)
      case None => []
      case Some(counter) => [AccountMeta(counter, false, true)]
  }

  /** What `getTransferHookAccounts` returns. */
  function HookAccountList(account: Option<MintAccount>, mintAddress: Pubkey, derive: Deriver): seq<AccountMeta> {
    match TransferHookProgram(account)
    case None => []
    case Some(hook) => [AccountMeta(hook, false, false)] + DerivedHookAccounts(mintAddress, hook, derive)
  }

  /** `getTransferHookAccounts`: the list is built by successive pushes;
      a failure before the first push gives the empty list, a failed
      derivation keeps what was pushed before it. The source, destination,
      owner and amount are never read. */
  method GetTransferHookAccounts(account: Option<MintAccount>, mintAddress: Pubkey, source: Pubkey,
                                 destination: Pubkey, owner: Pubkey, amount: int, derive: Deriver)
    returns (accounts: seq<AccountMeta>)
    ensures accounts == HookAccountList(account, mintAddress, derive)
  {
    var mintInfo := GetMintInfo(account);
    if mintInfo.Err? {
      return [];
    }
    var tokenProgramId := GetTokenProgramId(account);
    if tokenProgramId != Ok(TOKEN_2022_PROGRAM_ID) {
      return [];
    }
    var transferHook := mintInfo.value.transferHook;
    if transferHook.None? {
      return [];
    }
    var transferHookProgramId := transferHook.value;
    accounts := [];
    accounts := accounts + [AccountMeta(transferHookProgramId, false, false)];
    var extraAccountMetaAddress := derive([Literal(EXTRA_ACCOUNT_METAS_SEED), Key(mintAddress)], transferHookProgramId);
    if extraAccountMetaAddress.None? {
      return;
    }
    accounts := accounts + [AccountMeta(extraAccountMetaAddress.value, false, false)];
    var counterPda := derive([Literal(COUNTER_SEED)], transferHookProgramId);
    if counterPda.None? {
      return;
    }
    accounts := accounts + [AccountMeta(counterPda.value, false, true)];
  }

  /** A missing mint, a mint of another program, or a Token-2022 mint
      without a hook: no accounts. */
  lemma NoHookNoAccounts(account: Option<MintAccount>, mintAddress: Pubkey, derive: Deriver)
    requires || account.None?
             || !IsToken2022(account.value)
             || account.value.transferHook.None?
    ensures HookAccountList(account, mintAddress, derive) == []
  {
    ProgramIdsDiffer();
  }

  /** With a hook and both derivations succeeding: the hook program, the
      extra-account-metas address and the counter address, in that order,
      only the counter writable. */
  lemma HookAccountsExact(mintAddress: Pubkey, hook: Pubkey, extra: Pubkey, counter: Pubkey, derive: Deriver)
    requires derive([Literal(EXTRA_ACCOUNT_METAS_SEED), Key(mintAddress)], hook) == Some(extra)
    requires derive([Literal(COUNTER_SEED)], hook) == Some(counter)
    ensures HookAccountList(Some(MintAccount(TOKEN_2022_PROGRAM_ID, true, Some(hook))), mintAddress, derive)
            == [AccountMeta(hook, false, false), AccountMeta(extra, false, false), AccountMeta(counter, false, true)]
  {
  }

  /** A failed derivation leaves what was pushed before it. */
  lemma FailedDerivationKeepsPrefix(mintAddress: Pubkey, hook: Pubkey, derive: Deriver)
    ensures var list := HookAccountList(Some(MintAccount(TOKEN_2022_PROGRAM_ID, true, Some(hook))), mintAddress, derive);
            var extra := derive([Literal(EXTRA_ACCOUNT_METAS_SEED), Key(mintAddress)], hook);
            && (extra.None? ==> list == [AccountMeta(hook, false, false)])
            && (extra.Some? && derive([Literal(COUNTER_SEED)], hook).None? ==>
                  list == [AccountMeta(hook, false, false), AccountMeta(extra.value, false, false)])
  {
  }

  /** Every list has the hook program first, at most three entries, no
      signer, and only the third entry writable. */
  lemma HookAccountFlags(account: Option<MintAccount>, mintAddress: Pubkey, derive: Deriver)
    ensures var list := HookAccountList(account, mintAddress, derive);
            && |list| <= 3
            && (list != [] ==> TransferHookProgram(account) == Some(list[0].pubkey))
            && forall i :: 0 <= i < |list| ==> !list[i].isSigner && (list[i].isWritable <==> i == 2)
  {
  }

  /** `hasTransferHooks`: false for a mint of another program, false when
      a lookup throws, and otherwise whether the mint has a hook. */
  function HasTransferHooks(account: Option<MintAccount>): bool {
    match GetTokenProgramId(account)
    case Err(_) => false
    case Ok(programId) =>
      if programId != TOKEN_2022_PROGRAM_ID then false
      else
        match GetMintInfo(account)
        case Err(_) => false
        case Ok(mint) => mint.transferHook.Some?
  }

  /** `hasTransferHooks` holds exactly when `getTransferHookAccounts`
      returns a non-empty list, whatever the derivations do. */
  lemma HasHooksIffAccounts(account: Option<MintAccount>, mintAddress: Pubkey, derive: Deriver)
    ensures HasTransferHooks(account) <==> HookAccountList(account, mintAddress, derive) != []
    ensures HasTransferHooks(account) <==> TransferHookProgram(account).Some?
  {
  }

  /** `hasTransferHooks` is false for a mint of another program and
      whenever a lookup throws. */
  lemma NoHooksOnError(account: Option<MintAccount>)
    requires account.None? || !IsToken2022(account.value) || GetMintInfo(account).Err?
    ensures !HasTransferHooks(account)
  {
    ProgramIdsDiffer();
  }
}
