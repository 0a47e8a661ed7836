/** The Switcheo ZRC-2 token: what the lock proxy sends is minted, what it receives is burned by a
    message the token sends to itself and that runs later in the same transaction. */
module SwitcheoToken {
  import opened Base
  import opened Sums

  datatype QueuedBurn = QueuedBurn(account: Address, amount: nat)

  /** `queue` holds the burn messages sent and not yet run. */
  datatype State = State(
    totalSupply: nat,
    balances: map<Address, nat>,
    allowances: map<(Address, Address), nat>,
    lockProxy: Address,
    owner: Address,
    queue: seq<QueuedBurn>)

  datatype Transition =
    | Transfer(to: Address, amount: nat)
    | TransferFrom(from: Address, to: Address, amount: nat)
    | IncreaseAllowance(spender: Address, amount: nat)
    | DecreaseAllowance(spender: Address, amount: nat)
    | Burn(account: Address, amount: nat)
    | ChangeLockProxy(lockProxy: Address)

  /** A step of a transaction: somebody other than the token calls it, or a queued burn runs. */
  datatype Step = Call(sender: Address, transition: Transition) | RunQueued(index: nat)

  /** Uint128 addition, which throws on overflow. */
  function Add(a: nat, b: nat): Option<nat> {
    if a + b < UINT128_LIMIT then Some(a + b) else None
  }

  function BalanceOf(s: State, account: Address): nat {
    Get(s.balances, account)
  }

  // ----- procedures and transitions; None is a throw

  function MoveEffect(s: State, from: Address, to: Address, amount: nat): Option<State> {
    if amount > BalanceOf(s, from) then None
    else
      var debited := s.balances[from := BalanceOf(s, from) - amount];
      var credited := if to in debited then Add(debited[to], amount) else Some(amount);
      if credited.None? then None else Some(s.(balances := debited[to := credited.value]))
  }

  function MintEffect(s: State, account: Address, amount: nat): Option<State> {
    var supply := Add(s.totalSupply, amount);
    var balance := if account in s.balances then Add(s.balances[account], amount) else Some(amount);
    if account == ZERO_ADDRESS || supply.None? || balance.None? then None
    else Some(s.(totalSupply := supply.value, balances := s.balances[account := balance.value]))
  }

  function BurnEffect(s: State, account: Address, amount: nat): Option<State> {
    if account == ZERO_ADDRESS || amount > s.totalSupply || amount > BalanceOf(s, account) then None
    else Some(s.(totalSupply := s.totalSupply - amount, balances := s.balances[account := BalanceOf(s, account) - amount]))
  }

  function HandleMintEffect(s: State, account: Address, amount: nat): Option<State> {
    if account == s.lockProxy then MintEffect(s, account, amount) else Some(s)
  }

  function HandleBurnEffect(s: State, account: Address, amount: nat): State {
    if account == s.lockProxy then s.(queue := s.queue + [QueuedBurn(account, amount)]) else s
  }

  function TransferEffect(s: State, sender: Address, to: Address, amount: nat): Option<State> {
    var minted := HandleMintEffect(s, sender, amount);
    if minted.None? then None
    else
      var moved := MoveEffect(minted.value, sender, to, amount);
      if moved.None? then None else Some(HandleBurnEffect(moved.value, to, amount))
  }

  function TransferFromEffect(s: State, sender: Address, from: Address, to: Address, amount: nat): Option<State> {
    var allowed := Get(s.allowances, (from, sender));
    if amount > allowed then None
    else
      var moved := MoveEffect(s, from, to, amount);
      if moved.None? then None
      else Some(HandleBurnEffect(moved.value, to, amount).(allowances := s.allowances[(from, sender) := allowed - amount]))
  }

  function CallEffect(self: Address, s: State, sender: Address, transition: Transition): Option<State> {
    match transition
    case Transfer(to, amount) => TransferEffect(s, sender, to, amount)
    case TransferFrom(from, to, amount) => TransferFromEffect(s, sender, from, to, amount)
    case IncreaseAllowance(spender, amount) =>
      var allowance := Add(Get(s.allowances, (sender, spender)), amount);
      if sender == spender || allowance.None? then None
      else Some(s.(allowances := s.allowances[(sender, spender) := allowance.value]))
    case DecreaseAllowance(spender, amount) =>
      var allowance := Get(s.allowances, (sender, spender));
      if sender == spender then None
      else Some(s.(allowances := s.allowances[(sender, spender) := if amount <= allowance then allowance - amount else 0]))
    case Burn(account, amount) => if sender != self then None else BurnEffect(s, account, amount)
    case ChangeLockProxy(lockProxy) => if sender != s.owner then None else Some(s.(lockProxy := lockProxy))
  }

  function Without(queue: seq<QueuedBurn>, index: nat): seq<QueuedBurn>
    requires index < |queue|
  {
    queue[..index] + queue[index + 1..]
  }

  function StepEffect(self: Address, s: State, step: Step): Option<State> {
    match step
    case Call(sender, transition) => if sender == self then None else CallEffect(self, s, sender, transition)
    case RunQueued(index) =>
      if index >= |s.queue| then None
      else CallEffect(self, s.(queue := Without(s.queue, index)), self, Burn(s.queue[index].account, s.queue[index].amount))
  }

  function StepsEffect(self: Address, s: State, steps: seq<Step>): Option<State> {
    if steps == [] then Some(s)
    else
      var before := StepsEffect(self, s, steps[..|steps| - 1]);
      if before.None? then None else StepEffect(self, before.value, steps[|steps| - 1])
  }

  /** A transaction takes effect when nothing throws and every message it sent has been processed. */
  function TransactionEffect(self: Address, s: State, steps: seq<Step>): State {
    var after := StepsEffect(self, s, steps);
    if after.Some? && after.value.queue == [] then after.value else s
  }

  function History(self: Address, s: State, transactions: seq<seq<Step>>): State {
    if transactions == [] then s
    else TransactionEffect(self, History(self, s, transactions[..|transactions| - 1]), transactions[|transactions| - 1])
  }

  function Deployed(owner: Address, lockProxy: Address): State {
    State(0, map[], map[], lockProxy, owner, [])
  }

  // ----- the contract

  class Token {
    const self: Address
    const owner: Address
    var totalSupply: nat
    var balances: map<Address, nat>
    var allowances: map<(Address, Address), nat>
    var lockProxy: Address
    var queue: seq<QueuedBurn>

    ghost function View(): State
      reads this
    {
      State(totalSupply, balances, allowances, lockProxy, owner, queue)
    }

    constructor (self: Address, owner: Address, lockProxy: Address)
      requires lockProxy != ZERO_ADDRESS
      ensures View() == Deployed(owner, lockProxy) && this.self == self
      ensures totalSupply == 0 && balances == map[] && allowances == map[] && queue == []
      ensures this.lockProxy == lockProxy && this.owner == owner
    {
      this.self, this.owner, this.lockProxy := self, owner, lockProxy;
      totalSupply, balances, allowances, queue := 0, map[], map[], [];
    }

    /** False is a throw; what was written before it is undone with the transaction. */
    method AuthorizedMoveIfSufficientBalance(from: Address, to: Address, amount: nat) returns (ok: bool)
      modifies this`balances
      ensures ok <==> MoveEffect(old(View()), from, to, amount).Some?
      ensures ok ==> View() == MoveEffect(old(View()), from, to, amount).value
    {
      var balance := Get(balances, from);
      if amount > balance {
        return false;
      }
      balances := balances[from := balance - amount];
      var credited := Some(amount);
      if to in balances {
        credited := Add(balances[to], amount);
      }
      ok := credited.Some?;
      if ok {
        balances := balances[to := credited.value];
      }
    }

    method MintTo(account: Address, amount: nat) returns (ok: bool)
      modifies this`totalSupply, this`balances
      ensures ok <==> MintEffect(old(View()), account, amount).Some?
      ensures ok ==> View() == MintEffect(old(View()), account, amount).value
    {
      var supply := Add(totalSupply, amount);
      if account == ZERO_ADDRESS || supply.None? {
        return false;
      }
      totalSupply := supply.value;
      var balance := Some(amount);
      if account in balances {
        balance := Add(balances[account], amount);
      }
      ok := balance.Some?;
      if ok {
        balances := balances[account := balance.value];
      }
    }

    method BurnFrom(account: Address, amount: nat) returns (ok: bool)
      modifies this`totalSupply, this`balances
      ensures ok <==> BurnEffect(old(View()), account, amount).Some?
      ensures ok ==> View() == BurnEffect(old(View()), account, amount).value
    {
      if account == ZERO_ADDRESS || amount > totalSupply {
        return false;
      }
      totalSupply := totalSupply - amount;
      var balance := Get(balances, account);
      ok := amount <= balance;
      if ok {
        balances := balances[account := balance - amount];
      }
    }

    method HandleBurn(account: Address, amount: nat)
      modifies this`queue
      ensures View() == HandleBurnEffect(old(View()), account, amount)
    {
      if account == lockProxy {
        queue := queue + [QueuedBurn(account, amount)];
      }
    }

    method TransferTo(sender: Address, to: Address, amount: nat) returns (ok: bool)
      modifies this
      ensures ok <==> TransferEffect(old(View()), sender, to, amount).Some?
      ensures ok ==> View() == TransferEffect(old(View()), sender, to, amount).value
    {
      if sender == lockProxy {
        ok := MintTo(sender, amount);
        if !ok {
          return;
        }
      }
      ok := AuthorizedMoveIfSufficientBalance(sender, to, amount);
      if ok {
        HandleBurn(to, amount);
      }
    }

    method TransferFromTo(sender: Address, from: Address, to: Address, amount: nat) returns (ok: bool)
      modifies this
      ensures ok <==> TransferFromEffect(old(View()), sender, from, to, amount).Some?
      ensures ok ==> View() == TransferFromEffect(old(View()), sender, from, to, amount).value
    {
      var allowed := Get(allowances, (from, sender));
      if amount > allowed {
        return false;
      }
      ok := AuthorizedMoveIfSufficientBalance(from, to, amount);
      if ok {
        HandleBurn(to, amount);
        allowances := allowances[(from, sender) := allowed - amount];
      }
    }

    method Receive(sender: Address, transition: Transition) returns (ok: bool)
      modifies this
      ensures ok <==> CallEffect(self, old(View()), sender, transition).Some?
      ensures ok ==> View() == CallEffect(self, old(View()), sender, transition).value
    {
      match transition {
        case Transfer(to, amount) => ok := TransferTo(sender, to, amount);
        case TransferFrom(from, to, amount) => ok := TransferFromTo(sender, from, to, amount);
        case IncreaseAllowance(spender, amount) =>
          var allowance := Add(Get(allowances, (sender, spender)), amount);
          ok := sender != spender && allowance.Some?;
          if ok {
            allowances := allowances[(sender, spender) := allowance.value];
          }
        case DecreaseAllowance(spender, amount) =>
          var allowance := Get(allowances, (sender, spender));
          ok := sender != spender;
          if ok {
            allowances := allowances[(sender, spender) := if amount <= allowance then allowance - amount else 0];
          }
        case Burn(account, amount) =>
          ok := false;
          if sender == self {
            ok := BurnFrom(account, amount);
          }
        case ChangeLockProxy(changed) =>
          ok := sender == owner;
          if ok {
            lockProxy := changed;
          }
      }
    }

    method TakeStep(step: Step) returns (ok: bool)
      modifies this
      ensures ok <==> StepEffect(self, old(View()), step).Some?
      ensures ok ==> View() == StepEffect(self, old(View()), step).value
    {
      match step {
        case Call(sender, transition) =>
          ok := sender != self;
          if ok {
            ok := Receive(sender, transition);
          }
        case RunQueued(index) =>
          ok := index < |queue|;
          if ok {
            var burn := queue[index];
            queue := Without(queue, index);
            ok := Receive(self, Burn(burn.account, burn.amount));
          }
      }
    }

    method Transact(steps: seq<Step>) returns (ok: bool)
      requires queue == []
      modifies this
      ensures View() == TransactionEffect(self, old(View()), steps)
      ensures ok ==> StepsEffect(self, old(View()), steps) == Some(View()) && queue == []
      ensures !ok ==> View() == old(View())
      ensures ok <==> StepsEffect(self, old(View()), steps).Some? && StepsEffect(self, old(View()), steps).value.queue == []
    {
      var supply', balances', allowances', lockProxy' := totalSupply, balances, allowances, lockProxy;
      ghost var before := View();
      ok := true;
      var i := 0;
      while i < |steps| && ok
        invariant 0 <= i <= |steps|
        invariant ok ==> StepsEffect(self, before, steps[..i]) == Some(View())
        invariant !ok ==> StepsEffect(self, before, steps[..i]).None?
        decreases |steps| - i, ok
      {
        assert steps[..i + 1][..i] == steps[..i];
        ok := TakeStep(steps[i]);
        i := i + 1;
      }
      if !ok {
        ThrowSticks(self, before, steps, i);
      }
      assert steps[..|steps|] == steps;
      ok := ok && queue == [];
      if !ok {
        totalSupply, balances, allowances, lockProxy, queue := supply', balances', allowances', lockProxy', [];
      }
    }
  }

  lemma {:induction false} ThrowSticks(self: Address, s: State, steps: seq<Step>, i: nat)
    requires i <= |steps| && StepsEffect(self, s, steps[..i]).None?
    ensures StepsEffect(self, s, steps).None?
  {
    if i < |steps| {
      var earlier := steps[..|steps| - 1];
      assert earlier[..i] == steps[..i];
      ThrowSticks(self, s, earlier, i);
    } else {
      assert steps[..i] == steps;
    }
  }

  // ----- the ledger invariant

  /** The amounts queued to be burned from an account. */
  function Queued(queue: seq<QueuedBurn>, account: Address): nat {
    if queue == [] then 0
    else Queued(queue[..|queue| - 1], account) + if queue[|queue| - 1].account == account then queue[|queue| - 1].amount else 0
  }

  ghost predicate Balanced(s: State) {
    Sum(s.balances) == s.totalSupply < UINT128_LIMIT
  }

  /** What the lock proxy holds beyond `held` is about to be burned. */
  ghost predicate ProxyWithin(s: State, held: nat) {
    BalanceOf(s, s.lockProxy) <= held + Queued(s.queue, s.lockProxy)
  }

  lemma {:induction false} QueuedWithout(queue: seq<QueuedBurn>, index: nat, account: Address)
    requires index < |queue|
    ensures Queued(Without(queue, index), account) ==
            Queued(queue, account) - if queue[index].account == account then queue[index].amount else 0
  {
    var last := |queue| - 1;
    if index == last {
      assert Without(queue, index) == queue[..last];
    } else {
      QueuedWithout(queue[..last], index, account);
      assert Without(queue, index)[..last - 1] == Without(queue[..last], index);
    }
  }

  lemma QueuedOneMore(queue: seq<QueuedBurn>, burn: QueuedBurn, account: Address)
    ensures Queued(queue + [burn], account) == Queued(queue, account) + if burn.account == account then burn.amount else 0
  {
    assert (queue + [burn])[..|queue|] == queue;
  }

  /** A move throws only for want of balance: crediting never overflows. */
  lemma MoveBalanced(s: State, from: Address, to: Address, amount: nat)
    requires Balanced(s)
    ensures MoveEffect(s, from, to, amount).Some? <==> amount <= BalanceOf(s, from)
    ensures amount <= BalanceOf(s, from) ==>
              var s' := MoveEffect(s, from, to, amount).value;
              && Balanced(s') && s' == s.(balances := s'.balances)
              && forall a :: BalanceOf(s', a) ==
                             BalanceOf(s, a) - (if a == from then amount else 0) + (if a == to then amount else 0)
  {
    if amount <= BalanceOf(s, from) {
      var debited := s.balances[from := BalanceOf(s, from) - amount];
      SumUpdate(s.balances, from, BalanceOf(s, from) - amount);
      SumUpdate(debited, to, Get(debited, to) + amount);
    }
  }

  /** Once the supply addition succeeds, the balance addition does. */
  lemma MintBalanced(s: State, account: Address, amount: nat)
    requires Balanced(s)
    ensures MintEffect(s, account, amount).Some? <==> account != ZERO_ADDRESS && s.totalSupply + amount < UINT128_LIMIT
    ensures MintEffect(s, account, amount).Some? ==>
              var s' := MintEffect(s, account, amount).value;
              && Balanced(s') && s' == s.(totalSupply := s.totalSupply + amount, balances := s'.balances)
              && forall a :: BalanceOf(s', a) == BalanceOf(s, a) + (if a == account then amount else 0)
  {
    SumUpdate(s.balances, account, BalanceOf(s, account) + amount);
  }

  lemma BurnBalanced(s: State, account: Address, amount: nat)
    requires Balanced(s)
    ensures BurnEffect(s, account, amount).Some? <==> account != ZERO_ADDRESS && amount <= BalanceOf(s, account)
    ensures BurnEffect(s, account, amount).Some? ==>
              var s' := BurnEffect(s, account, amount).value;
              && Balanced(s') && s' == s.(totalSupply := s.totalSupply - amount, balances := s'.balances)
              && forall a :: BalanceOf(s', a) == BalanceOf(s, a) - (if a == account then amount else 0)
  {
    SumUpdate(s.balances, account, 0);
    if amount <= BalanceOf(s, account) {
      SumUpdate(s.balances, account, BalanceOf(s, account) - amount);
    }
  }

  /** A transfer throws exactly when the lock proxy would push the supply past Uint128, or any other
      sender lacks the balance. */
  lemma TransferThrowsOnlyIf(s: State, sender: Address, to: Address, amount: nat)
    requires Balanced(s) && s.lockProxy != ZERO_ADDRESS
    ensures TransferEffect(s, sender, to, amount).Some? <==>
            if sender == s.lockProxy then s.totalSupply + amount < UINT128_LIMIT else amount <= BalanceOf(s, sender)
  {
    MintBalanced(s, sender, amount);
    var minted := HandleMintEffect(s, sender, amount);
    if minted.Some? {
      MoveBalanced(minted.value, sender, to, amount);
    }
  }

  /** A transfer debits its sender, unless that is the lock proxy, whose payment is new supply, and
      credits the recipient; nobody else's balance changes. */
  lemma TransferMoves(s: State, sender: Address, to: Address, amount: nat)
    requires Balanced(s) && TransferEffect(s, sender, to, amount).Some?
    ensures var s' := TransferEffect(s, sender, to, amount).value;
            && s'.totalSupply == s.totalSupply + (if sender == s.lockProxy then amount else 0)
            && s'.allowances == s.allowances && s'.lockProxy == s.lockProxy && s'.owner == s.owner
            && s'.queue == s.queue + (if to == s.lockProxy then [QueuedBurn(to, amount)] else [])
            && forall a :: BalanceOf(s', a) ==
                           BalanceOf(s, a) - (if a == sender != s.lockProxy then amount else 0) + (if a == to then amount else 0)
  {
    MintBalanced(s, sender, amount);
    MoveBalanced(HandleMintEffect(s, sender, amount).value, sender, to, amount);
  }

  /** A transfer on behalf of an owner mints nothing and uses up exactly the amount of the allowance. */
  lemma TransferFromMoves(s: State, sender: Address, from: Address, to: Address, amount: nat)
    requires Balanced(s)
    ensures TransferFromEffect(s, sender, from, to, amount).Some? <==>
            amount <= Get(s.allowances, (from, sender)) && amount <= BalanceOf(s, from)
    ensures TransferFromEffect(s, sender, from, to, amount).Some? ==>
              var s' := TransferFromEffect(s, sender, from, to, amount).value;
              && s'.totalSupply == s.totalSupply && s'.lockProxy == s.lockProxy && s'.owner == s.owner
              && s'.queue == s.queue + (if to == s.lockProxy then [QueuedBurn(to, amount)] else [])
              && (forall key :: Get(s'.allowances, key) ==
                                Get(s.allowances, key) - (if key == (from, sender) then amount else 0))
              && forall a :: BalanceOf(s', a) ==
                             BalanceOf(s, a) - (if a == from then amount else 0) + (if a == to then amount else 0)
  {
    MoveBalanced(s, from, to, amount);
  }

  lemma TransferKeeps(s: State, sender: Address, to: Address, amount: nat, held: nat)
    requires Balanced(s) && TransferEffect(s, sender, to, amount).Some?
    ensures Balanced(TransferEffect(s, sender, to, amount).value)
    ensures ProxyWithin(s, held) ==> ProxyWithin(TransferEffect(s, sender, to, amount).value, held)
  {
    MintBalanced(s, sender, amount);
    MoveBalanced(HandleMintEffect(s, sender, amount).value, sender, to, amount);
    QueuedOneMore(s.queue, QueuedBurn(to, amount), s.lockProxy);
  }

  lemma TransferFromKeeps(s: State, sender: Address, from: Address, to: Address, amount: nat, held: nat)
    requires Balanced(s) && TransferFromEffect(s, sender, from, to, amount).Some?
    ensures Balanced(TransferFromEffect(s, sender, from, to, amount).value)
    ensures ProxyWithin(s, held) ==> ProxyWithin(TransferFromEffect(s, sender, from, to, amount).value, held)
  {
    MoveBalanced(s, from, to, amount);
    QueuedOneMore(s.queue, QueuedBurn(to, amount), s.lockProxy);
  }

  predicate KeepsProxy(step: Step) {
    step.Call? ==> !step.transition.ChangeLockProxy?
  }

  /** What the current lock proxy held when it became the lock proxy; `held` for the first one. */
  function HeldWhenInstalled(self: Address, s: State, steps: seq<Step>, held: nat): nat
    requires StepsEffect(self, s, steps).Some?
  {
    if steps == [] then held
    else
      var earlier, last := steps[..|steps| - 1], steps[|steps| - 1];
      if KeepsProxy(last) then HeldWhenInstalled(self, s, earlier, held)
      else BalanceOf(StepsEffect(self, s, earlier).value, last.transition.lockProxy)
  }

  lemma StepKeeps(self: Address, s: State, step: Step, held: nat)
    requires Balanced(s) && StepEffect(self, s, step).Some?
    ensures Balanced(StepEffect(self, s, step).value)
    ensures KeepsProxy(step) ==> StepEffect(self, s, step).value.lockProxy == s.lockProxy
    ensures KeepsProxy(step) && ProxyWithin(s, held) ==> ProxyWithin(StepEffect(self, s, step).value, held)
  {
    match step {
      case Call(sender, Transfer(to, amount)) => TransferKeeps(s, sender, to, amount, held);
      case Call(sender, TransferFrom(from, to, amount)) => TransferFromKeeps(s, sender, from, to, amount, held);
      case Call(_, _) =>
      case RunQueued(index) =>
        var burn := s.queue[index];
        QueuedWithout(s.queue, index, s.lockProxy);
        BurnBalanced(s.(queue := Without(s.queue, index)), burn.account, burn.amount);
    }
  }

  /** At every point of a transaction, changes of the lock proxy included: the supply is the sum of the
      balances, and the lock proxy holds at most what it held when it became that plus what is queued. */
  lemma {:induction false} StepsKeep(self: Address, s: State, steps: seq<Step>, held: nat)
    requires Balanced(s) && ProxyWithin(s, held)
    requires StepsEffect(self, s, steps).Some?
    ensures Balanced(StepsEffect(self, s, steps).value)
    ensures ProxyWithin(StepsEffect(self, s, steps).value, HeldWhenInstalled(self, s, steps, held))
  {
    if steps != [] {
      var earlier := steps[..|steps| - 1];
      StepsKeep(self, s, earlier, held);
      StepKeeps(self, StepsEffect(self, s, earlier).value, steps[|steps| - 1], HeldWhenInstalled(self, s, earlier, held));
    }
  }

  /** The same over transactions; those that fail change nothing. */
  function HeldInHistory(self: Address, s: State, transactions: seq<seq<Step>>, held: nat): nat {
    if transactions == [] then held
    else
      var earlier, last := transactions[..|transactions| - 1], transactions[|transactions| - 1];
      var before := History(self, s, earlier);
      var heldBefore := HeldInHistory(self, s, earlier, held);
      if StepsEffect(self, before, last).Some? && StepsEffect(self, before, last).value.queue == []
      then HeldWhenInstalled(self, before, last, heldBefore) else heldBefore
  }

  /** After any transactions, whatever messages they interleave and however often the lock proxy is
      changed: the supply is the sum of the balances, no burn is pending, and the lock proxy holds at
      most what it held when it became the lock proxy. */
  lemma {:induction false} HistoryKeeps(self: Address, s: State, transactions: seq<seq<Step>>, held: nat)
    requires Balanced(s) && s.queue == [] && BalanceOf(s, s.lockProxy) <= held
    ensures var s' := History(self, s, transactions);
            && Balanced(s') && s'.queue == []
            && BalanceOf(s', s'.lockProxy) <= HeldInHistory(self, s, transactions, held)
  {
    if transactions != [] {
      var earlier, last := transactions[..|transactions| - 1], transactions[|transactions| - 1];
      HistoryKeeps(self, s, earlier, held);
      var before := History(self, s, earlier);
      if StepsEffect(self, before, last).Some? {
        StepsKeep(self, before, last, HeldInHistory(self, s, earlier, held));
      }
    }
  }

  ghost predicate KeepProxy(transactions: seq<seq<Step>>) {
    forall t, i :: 0 <= t < |transactions| && 0 <= i < |transactions[t]| ==> KeepsProxy(transactions[t][i])
  }

  lemma {:induction false} SameProxy(self: Address, s: State, steps: seq<Step>, held: nat)
    requires forall i :: 0 <= i < |steps| ==> KeepsProxy(steps[i])
    requires Balanced(s) && StepsEffect(self, s, steps).Some?
    ensures StepsEffect(self, s, steps).value.lockProxy == s.lockProxy
    ensures Balanced(StepsEffect(self, s, steps).value)
    ensures HeldWhenInstalled(self, s, steps, held) == held
  {
    if steps != [] {
      SameProxy(self, s, steps[..|steps| - 1], held);
      StepKeeps(self, StepsEffect(self, s, steps[..|steps| - 1]).value, steps[|steps| - 1], held);
    }
  }

  lemma {:induction false} SameProxyInHistory(self: Address, s: State, transactions: seq<seq<Step>>, held: nat)
    requires Balanced(s) && s.queue == [] && KeepProxy(transactions)
    ensures History(self, s, transactions).lockProxy == s.lockProxy && Balanced(History(self, s, transactions))
    ensures HeldInHistory(self, s, transactions, held) == held
  {
    if transactions != [] {
      var earlier, last := transactions[..|transactions| - 1], transactions[|transactions| - 1];
      assert KeepProxy(earlier) by {
        assert forall t :: 0 <= t < |earlier| ==> earlier[t] == transactions[t];
      }
      SameProxyInHistory(self, s, earlier, held);
      if StepsEffect(self, History(self, s, earlier), last).Some? {
        SameProxy(self, History(self, s, earlier), last, held);
      }
    }
  }

  /** With the lock proxy of deployment: no burn is pending and the lock proxy holds nothing. */
  lemma ProxyIsEmptyBetweenTransactions(self: Address, owner: Address, lockProxy: Address, transactions: seq<seq<Step>>)
    requires KeepProxy(transactions)
    ensures var s := History(self, Deployed(owner, lockProxy), transactions);
            Balanced(s) && s.queue == [] && s.lockProxy == lockProxy && BalanceOf(s, lockProxy) == 0
  {
    HistoryKeeps(self, Deployed(owner, lockProxy), transactions, 0);
    SameProxyInHistory(self, Deployed(owner, lockProxy), transactions, 0);
  }

  /** A new lock proxy is empty after all transactions to come, until the next change, exactly when it
      holds nothing at the change. */
  lemma ChangedProxyStaysEmptyIff(self: Address, s: State, lockProxy: Address)
    requires Balanced(s) && s.queue == []
    ensures var changed := CallEffect(self, s, s.owner, ChangeLockProxy(lockProxy));
            && changed.Some?
            && ((forall transactions :: KeepProxy(transactions) ==>
                   BalanceOf(History(self, changed.value, transactions), lockProxy) == 0) <==>
                BalanceOf(s, lockProxy) == 0)
  {
    var changed := CallEffect(self, s, s.owner, ChangeLockProxy(lockProxy)).value;
    if BalanceOf(s, lockProxy) == 0 {
      forall transactions | KeepProxy(transactions)
        ensures BalanceOf(History(self, changed, transactions), lockProxy) == 0
      {
        HistoryKeeps(self, changed, transactions, 0);
        SameProxyInHistory(self, changed, transactions, 0);
      }
    } else {
      assert KeepProxy([]) && BalanceOf(History(self, changed, []), lockProxy) != 0;
    }
  }

  // ----- who may do what else

  /** Anybody but the spender itself sets what the spender may move of the sender's own: adding to it within
      Uint128, or taking off down to zero. No other allowance changes, and nothing else. */
  lemma AllowancesAreTheSenders(self: Address, s: State, sender: Address, spender: Address, amount: nat)
    ensures var added := CallEffect(self, s, sender, IncreaseAllowance(spender, amount));
            && (added.Some? <==> sender != spender && Get(s.allowances, (sender, spender)) + amount < UINT128_LIMIT)
            && (added.Some? ==>
                  && added.value == s.(allowances := added.value.allowances)
                  && forall key :: Get(added.value.allowances, key) ==
                                   Get(s.allowances, key) + (if key == (sender, spender) then amount else 0))
    ensures var taken := CallEffect(self, s, sender, DecreaseAllowance(spender, amount));
            && (taken.Some? <==> sender != spender)
            && (taken.Some? ==>
                  && taken.value == s.(allowances := taken.value.allowances)
                  && (forall key :: key != (sender, spender) ==> Get(taken.value.allowances, key) == Get(s.allowances, key))
                  && var before := Get(s.allowances, (sender, spender));
                     Get(taken.value.allowances, (sender, spender)) == if before < amount then 0 else before - amount)
  {
  }

  /** Only the token itself burns, and only the owner changes the lock proxy. */
  lemma BurnsAreTheTokensOwn(self: Address, s: State, sender: Address, account: Address, amount: nat)
    requires Balanced(s)
    ensures var burned := CallEffect(self, s, sender, Burn(account, amount));
            && (burned.Some? <==> sender == self && account != ZERO_ADDRESS && amount <= BalanceOf(s, account))
            && (burned.Some? ==>
                  && burned.value == s.(totalSupply := s.totalSupply - amount, balances := burned.value.balances)
                  && forall a :: BalanceOf(burned.value, a) == BalanceOf(s, a) - (if a == account then amount else 0))
    ensures var changed := CallEffect(self, s, sender, ChangeLockProxy(account));
            && (changed.Some? <==> sender == s.owner)
            && (changed.Some? ==> changed.value == s.(lockProxy := account))
  {
    BurnBalanced(s, account, amount);
  }

  /** Nobody outside burns: a call of `Burn` throws, whoever makes it. */
  lemma OutsideBurnThrows(self: Address, s: State, sender: Address, account: Address, amount: nat)
    ensures StepEffect(self, s, Call(sender, Burn(account, amount))).None?
  {
  }

  /** A holder that pays the lock proxy and the burn that follows take effect as one transaction, exactly when
      the holder has the amount and the lock proxy is not the zero address: the amount leaves the supply. */
  lemma PaymentToProxyBurnsIff(self: Address, s: State, sender: Address, amount: nat)
    requires Balanced(s) && s.queue == [] && sender != self && sender != s.lockProxy
    ensures var steps := [Call(sender, Transfer(s.lockProxy, amount)), RunQueued(0)];
            var s' := TransactionEffect(self, s, steps);
            && (StepsEffect(self, s, steps).Some? <==> amount <= BalanceOf(s, sender) && s.lockProxy != ZERO_ADDRESS)
            && (StepsEffect(self, s, steps).None? ==> s' == s)
            && (StepsEffect(self, s, steps).Some? ==>
                  && s'.totalSupply == s.totalSupply - amount && s'.queue == []
                  && forall a :: BalanceOf(s', a) == BalanceOf(s, a) - (if a == sender then amount else 0))
  {
    var pay, run := Call(sender, Transfer(s.lockProxy, amount)), RunQueued(0);
    assert [pay, run][..1] == [pay] && [pay][..0] == [];
    assert StepsEffect(self, s, []) == Some(s);
    assert StepsEffect(self, s, [pay]) == TransferEffect(s, sender, s.lockProxy, amount);
    MoveBalanced(s, sender, s.lockProxy, amount);
    if amount <= BalanceOf(s, sender) {
      var paid := TransferEffect(s, sender, s.lockProxy, amount).value;
      TransferMoves(s, sender, s.lockProxy, amount);
      assert Without(paid.queue, 0) == [];
      BurnBalanced(paid.(queue := []), s.lockProxy, amount);
    }
  }

  /** What the lock proxy pays anybody else is one transaction too, exactly when it fits the supply. */
  lemma PaymentByProxyMintsIff(self: Address, s: State, to: Address, amount: nat)
    requires Balanced(s) && s.queue == [] && s.lockProxy != self && s.lockProxy != ZERO_ADDRESS && to != s.lockProxy
    ensures var steps := [Call(s.lockProxy, Transfer(to, amount))];
            var s' := TransactionEffect(self, s, steps);
            && (StepsEffect(self, s, steps).Some? <==> s.totalSupply + amount < UINT128_LIMIT)
            && (StepsEffect(self, s, steps).Some? ==>
                  && s'.totalSupply == s.totalSupply + amount && s'.queue == []
                  && forall a :: BalanceOf(s', a) == BalanceOf(s, a) + (if a == to then amount else 0))
  {
    var pay := Call(s.lockProxy, Transfer(to, amount));
    assert [pay][..0] == [];
    assert StepsEffect(self, s, []) == Some(s);
    assert StepsEffect(self, s, [pay]) == TransferEffect(s, s.lockProxy, to, amount);
    TransferThrowsOnlyIf(s, s.lockProxy, to, amount);
    if s.totalSupply + amount < UINT128_LIMIT {
      TransferMoves(s, s.lockProxy, to, amount);
    }
  }
}
