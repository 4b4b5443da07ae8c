/** The server's configuration constants. The configuration module itself is not
    part of this model: its values are taken as parameters. The turn duration is
    only used by timed waits, which are not modelled. */
module Config {

  datatype Settings = Settings(
    handshakeSyn: string,    // sent to every player when the match starts
    handshakeAck: string,    // the answer a player must give on its first line
    maxRecvLinesNo: nat,     // lines a player may send in one turn
    maxRecvSize: nat,        // characters a player may send in one turn (strict bound)
    maxRecvLineLen: nat)     // longest line a single read returns
}
