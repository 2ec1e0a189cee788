/**
 * The pooled speech-synthesis service: the pool's size accounting, and the
 * service switch that creates the pool once, drops it on close, and sends
 * requests through it. Clients in the pool are named by number; whether a
 * client is still connected, the outcome of dialling, and the reply the
 * pool's worker sends back are inputs.
 */
module SimpleTts {
  import opened Wrappers
  import AppConfig
  import TtsWebSocket
  import opened Text

  /** The pool size `InitSimpleTTS` uses. */
  const PoolSize := 5

  class Pool {
    const maxSize: nat
    /** The clients created so far, by number. */
    var clients: seq<nat>
    var currentSize: nat
    /** The clients waiting in the `available` channel, oldest first. */
    var available: seq<nat>
    var closed: bool

    /** The size counts the created clients and never passes the maximum; every waiting client was created by the pool. */
    ghost predicate Valid()
      reads this
    {
      && currentSize == |clients| <= maxSize
      && |available| <= maxSize
      && (forall i :: 0 <= i < |available| ==> available[i] in clients)
    }

    /** `NewTTSConnectionPool`. */
    constructor (maxSize: nat)
      ensures Valid() && this.maxSize == maxSize
      ensures clients == [] && currentSize == 0 && available == [] && !closed
    {
      this.maxSize := maxSize;
      clients, currentSize, available, closed := [], 0, [], false;
    }

    /**
     * `createNewClient`: a full pool waits for a client to come back, and
     * reconnects it if needed, or times out; otherwise a new client is
     * dialled and, when it connects, added and counted.
     * `firstConnected` says whether the waiting client is still
     * connected, `reconnect` is its reconnect's outcome, `dial` the new
     * client's.
     */
    method CreateNewClient(firstConnected: bool, reconnect: Outcome, dial: Outcome) returns (r: Result<nat>)
      requires Valid()
      modifies this`clients, this`currentSize, this`available
      ensures Valid()
      ensures old(currentSize) >= maxSize ==> clients == old(clients) && currentSize == old(currentSize)
      ensures old(currentSize) >= maxSize && old(available) == [] ==>
        r == Err("timeout waiting for available connection") && available == []
      ensures old(currentSize) >= maxSize && old(available) != [] ==>
        && available == old(available)[1..]
        && r == if !firstConnected && reconnect.Fail? then Err("failed to reconnect: " + reconnect.error) else Ok(old(available)[0])
      ensures old(currentSize) < maxSize && dial.Fail? ==>
        r == Err("failed to create new connection: " + dial.error) && unchanged(this)
      ensures old(currentSize) < maxSize && dial.Pass? ==>
        && r == Ok(old(|clients|)) && clients == old(clients) + [old(|clients|)]
        && currentSize == old(currentSize) + 1 && available == old(available)
    {
      if currentSize >= maxSize {
        if available == [] {
          return Err("timeout waiting for available connection");
        }
        var client := available[0];
        available := available[1..];
        if !firstConnected && reconnect.Fail? {
          return Err("failed to reconnect: " + reconnect.error);
        }
        return Ok(client);
      }
      if dial.Fail? {
        return Err("failed to create new connection: " + dial.error);
      }
      var client := |clients|;
      clients := clients + [client];
      currentSize := currentSize + 1;
      r := Ok(client);
    }

    /** `returnClient`: a connected client goes back unless the channel is full, in which case it is disconnected and dropped. */
    method ReturnClient(client: nat, connected: bool)
      requires Valid() && client in clients
      modifies this`available
      ensures Valid()
      ensures available == if connected && |old(available)| < maxSize then old(available) + [client] else old(available)
    {
      if connected && |available| < maxSize {
        available := available + [client];
      }
    }

    /**
     * `Close`: the pool is closed and its free list emptied. Go also
     * disconnects every client the pool created and closes its channels; a
     * client here is only its number, so those disconnects are not state
     * of this model.
     */
    method Close()
      requires Valid()
      modifies this`available, this`closed
      ensures Valid() && closed && available == []
    {
      closed := true;
      available := [];
    }
  }

  /** How the hand-off to the pool's worker ended. */
  datatype PoolReply =
    | Replied(result: Result<TtsWebSocket.TtsResponse>)
    | QueueTimeout
    | ReplyTimeout

  /** The package-wide switch: `connectionPool` and `isInitialized`. */
  class Service {
    var pool: Pool?
    var isInitialized: bool

    /** The switch is on exactly when there is a pool, and the pool is sound. */
    ghost predicate Valid()
      reads this, pool
    {
      && isInitialized == (pool != null)
      && (pool != null ==> pool.Valid() && pool.maxSize == PoolSize)
    }

    constructor ()
      ensures Valid() && pool == null && !isInitialized
    {
      pool, isInitialized := null, false;
    }

    /** `InitSimpleTTS`: a pool of five is made only when there is none; calling it again changes nothing. */
    method InitSimpleTTS() returns (r: Outcome)
      requires Valid()
      modifies this
      ensures Valid() && r.Pass? && isInitialized && pool != null
      ensures old(pool) != null ==> pool == old(pool)
      ensures old(pool) == null ==> fresh(pool) && pool.clients == [] && pool.available == [] && !pool.closed
    {
      if isInitialized && pool != null {
        return Pass;
      }
      pool := new Pool(PoolSize);
      isInitialized := true;
      r := Pass;
    }

    /** `ensureConnection`: initialise when not initialised. */
    method EnsureConnection() returns (r: Outcome)
      requires Valid()
      modifies this
      ensures Valid() && r.Pass? && isInitialized && pool != null
      ensures old(pool) != null ==> pool == old(pool)
    {
      r := Pass;
      if !isInitialized || pool == null {
        r := InitSimpleTTS();
      }
    }

    /** `CloseSimpleTTS`: the pool is closed and dropped; with no pool nothing happens. */
    method CloseSimpleTTS() returns (r: Outcome)
      requires Valid()
      modifies this, pool
      ensures Valid() && r.Pass? && pool == null && !isInitialized
      ensures old(pool) != null ==> old(pool).closed && old(pool).available == []
    {
      if pool != null {
        pool.Close();
        pool := null;
        isInitialized := false;
      }
      r := Pass;
    }

    /**
     * `sendTTSRequestThroughPool`: no pool, no request; otherwise the
     * worker's reply, or a timeout while queueing or while waiting.
     */
    method SendThroughPool(request: TtsWebSocket.TtsRequest, reply: PoolReply) returns (r: Result<TtsWebSocket.TtsResponse>)
      ensures pool == null ==> r == Err("connection pool not initialized")
      ensures pool != null ==> r == Delivered(reply)
    {
      if pool == null {
        return Err("connection pool not initialized");
      }
      match reply {
        case QueueTimeout => r := Err("timeout sending request to pool");
        case ReplyTimeout => r := Err("timeout waiting for TTS response");
        case Replied(res) => r := res;
      }
    }

    /**
     * `TextToAudioBase64WithVoice` (and `TextToAudioBase64`, whose voice is
     * a random catalogue voice): the pool is made sure of, then the text
     * goes out with the default encoding and cluster; the audio of the
     * reply, before base64 encoding.
     */
    method TextToAudioWithVoice(text: string, voice: string, reply: PoolReply) returns (r: Result<seq<byte>>, sent: TtsWebSocket.TtsRequest)
      requires Valid()
      modifies this
      ensures Valid() && isInitialized && pool != null
      ensures sent == TtsWebSocket.TtsRequest(text, voice, AppConfig.DefaultEncoding, AppConfig.DefaultCluster)
      ensures r == AudioOf(Delivered(reply))
    {
      var _ := EnsureConnection();
      sent := TtsWebSocket.TtsRequest(text, voice, AppConfig.DefaultEncoding, AppConfig.DefaultCluster);
      var response := SendThroughPool(sent, reply);
      r := AudioOf(response);
    }
  }

  /** What the caller of the pool receives once the pool exists. */
  function Delivered(reply: PoolReply): (r: Result<TtsWebSocket.TtsResponse>)
    ensures reply.Replied? ==> r == reply.result
    ensures !reply.Replied? ==> r.Err? && r.error != "connection pool not initialized"
  {
    match reply
    case QueueTimeout => Err("timeout sending request to pool")
    case ReplyTimeout => Err("timeout waiting for TTS response")
    case Replied(res) => res
  }

  /** A reply's audio, or its error with the prefixes `TextToAudioBase64WithVoice` adds. */
  function AudioOf(response: Result<TtsWebSocket.TtsResponse>): (r: Result<seq<byte>>)
    ensures r.Ok? <==> response.Ok? && response.value.error == ""
    ensures r.Ok? ==> r.value == response.value.audioData
  {
    match response
    case Err(e) => Err("TTS request failed: " + e)
    case Ok(resp) => if resp.error != "" then Err("TTS error: " + resp.error) else Ok(resp.audioData)
  }
}
