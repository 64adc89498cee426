/** What the off-chain clients see of an account: the record with its raw state byte. */
module Views {
  import opened Integers
  import opened State

  datatype SubscriptionView = SubscriptionView(
    subscriber: Key,
    price: U64,
    period: I64,
    tokenMint: Key,
    merchantAta: Key,
    state: U8,
    deposited: U64,
    withdrawn: U64,
    streamStart: I64)

  /** The typed reading of the state byte; unknown bytes are kept, not guessed. */
  datatype StateByte = Known(state: SubscriptionState) | Unknown(byte: U8)

  /** The wire discriminants. */
  function Byte(state: SubscriptionState): U8 {
    match state
    case Active => 0
    case Paused => 1
    case GracePeriod => 2
    case Exhausted => 3
    case Cancelled => 4
  }

  function FromByte(b: U8): StateByte {
    match b
    case 0 => Known(Active)
    case 1 => Known(Paused)
    case 2 => Known(GracePeriod)
    case 3 => Known(Exhausted)
    case 4 => Known(Cancelled)
    case other => Unknown(other)
  }

  /** The bytes on the wire: 0 to 4 are the five states in order of declaration, and every other byte stays unknown. */
  lemma Discriminants(state: SubscriptionState, b: U8)
    ensures FromByte(Byte(state)) == Known(state)
    ensures FromByte(0) == Known(Active) && FromByte(1) == Known(Paused) && FromByte(2) == Known(GracePeriod)
    ensures FromByte(3) == Known(Exhausted) && FromByte(4) == Known(Cancelled)
    ensures b > 4 ==> FromByte(b) == Unknown(b)
  {
  }

  function View(s: Subscription): SubscriptionView {
    SubscriptionView(s.subscriber, s.price, s.period, s.tokenMint, s.merchantAta,
                     Byte(s.state), s.deposited, s.withdrawn, s.streamStart)
  }

  function Fetch<K, V>(m: map<K, V>, k: K): Option<V> {
    if k in m then Some(m[k]) else None
  }
}
