/** Values exchanged on the bus and the retry-queue options (src/types/main.ts). */
module Types {

  datatype Option<T> = None | Some(value: T)

  /** The error a call raises instead of returning. */
  datatype Error =
    | NoDefaultTransport   // RuntimeException from BusManager.use
    | TypeError            // a property read on `undefined`

  datatype Result<T> = Success(value: T) | Failure(error: Error)

  /**
   * A structurally serialisable value. Object keys keep the order in which
   * they were written, as in a JavaScript object literal; numbers are
   * modelled as integers.
   */
  datatype Serializable =
    | Str(s: string)
    | Num(n: int)
    | Bool(b: bool)
    | Null
    | Arr(items: seq<Serializable>)
    | Obj(fields: seq<(string, Serializable)>)

  /** The envelope a bus stamps with its own id. */
  datatype TransportMessage = TransportMessage(busId: string, payload: Serializable)

  /** One pending retry: the channel and the envelope that failed to go out. */
  datatype Entry = Entry(channel: string, message: TransportMessage)

  /** A retry interval: milliseconds, or a duration string such as "100ms". */
  datatype Duration = Millis(ms: int) | Text(text: string)

  /**
   * RetryQueueOptions; `None` stands for a property that is absent
   * (`undefined`), and for `maxSize` also for `null`. An absent options
   * object behaves as one whose properties are all absent.
   */
  datatype RetryQueueOptions = RetryQueueOptions(
    enabled: Option<bool>,
    removeDuplicates: Option<bool>,
    maxSize: Option<nat>,
    retryInterval: Option<Duration>)

  const NoOptions := RetryQueueOptions(None, None, None, None)

  /** JavaScript truthiness of a configured retry interval. */
  predicate IntervalConfigured(d: Option<Duration>)
  {
    match d
    case None => false
    case Some(Millis(ms)) => ms != 0
    case Some(Text(t)) => t != ""
  }

  /** `maxSize && size >= maxSize`: the queue must evict before it appends. */
  predicate AtCapacity(maxSize: Option<nat>, size: nat)
  {
    maxSize.Some? && maxSize.value != 0 && size >= maxSize.value
  }

  /** The capacity bound a queue keeps; `null` and 0 mean unbounded. */
  predicate WithinCapacity(maxSize: Option<nat>, size: nat)
  {
    maxSize.Some? && maxSize.value != 0 ==> size <= maxSize.value
  }
}
