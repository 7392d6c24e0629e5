/**
 The external collaborators of a run, as Dafny state: the Firestore
 collection "monitoring" (per-endpoint last state), the BigQuery table
 monitor.uptime (history) and the alert mailer. Their failures are given by
 the environment through fault fields that the model never changes.
 */
module Stores {
  import opened Model

  /** Key/value state store: one document per endpoint name. */
  class StateStore {
    var docs: TestMap
    /** Documents whose read (Get or decoding) fails, with the error text. */
    var readFaults: map<string, string>
    /** Documents whose write (Set) fails, with the error text. */
    var writeFaults: map<string, string>

    constructor (docs: TestMap, readFaults: map<string, string>, writeFaults: map<string, string>)
      ensures this.docs == docs && this.readFaults == readFaults && this.writeFaults == writeFaults
    {
      this.docs := docs;
      this.readFaults := readFaults;
      this.writeFaults := writeFaults;
    }

    /** Get one document: an error, or whether it exists and what it holds. */
    method Get(k: string) returns (doc: Option<TestResult>, err: Option<string>)
      ensures k in readFaults ==> err == Some(readFaults[k]) && doc == None
      ensures k !in readFaults ==> err == None
      ensures k !in readFaults ==> doc == if k in docs then Some(docs[k]) else None
    {
      if k in readFaults {
        return None, Some(readFaults[k]);
      }
      doc := if k in docs then Some(docs[k]) else None;
      err := None;
    }

    /** Set one document, replacing whatever was stored under `k`. */
    method Set(k: string, v: TestResult) returns (err: Option<string>)
      modifies this`docs
      ensures k in writeFaults ==> err == Some(writeFaults[k]) && docs == old(docs)
      ensures k !in writeFaults ==> err == None && docs == old(docs)[k := v]
    {
      if k in writeFaults {
        return Some(writeFaults[k]);
      }
      docs := docs[k := v];
      err := None;
    }
  }

  /** Append-only history store: the rows of the uptime table. */
  class HistoryStore {
    var rows: seq<TestResult>
    /** Whether the next Put fails, with the error text. */
    var putFault: Option<string>

    constructor (rows: seq<TestResult>, putFault: Option<string>)
      ensures this.rows == rows && this.putFault == putFault
    {
      this.rows := rows;
      this.putFault := putFault;
    }

    /** Insert a batch of rows, all of them or, on error, none. */
    method Put(batch: seq<TestResult>) returns (err: Option<string>)
      modifies this`rows
      ensures err == putFault
      ensures err.None? ==> rows == old(rows) + batch
      ensures err.Some? ==> rows == old(rows)
    {
      err := putFault;
      if err.None? {
        rows := rows + batch;
      }
    }
  }

  /** The alert channel (SendAlertEmail): counts attempts and deliveries. */
  class Mailer {
    var attempts: nat
    var delivered: nat
    /** Whether the secret lookup or the SMTP send fails, with the error text. */
    var fault: Option<string>

    constructor (fault: Option<string>)
      ensures attempts == 0 && delivered == 0 && this.fault == fault
    {
      attempts, delivered := 0, 0;
      this.fault := fault;
    }

    /** Send the fixed alert message once. */
    method SendAlert() returns (err: Option<string>)
      modifies this`attempts, this`delivered
      ensures attempts == old(attempts) + 1
      ensures err == fault
      ensures delivered == old(delivered) + (if err.None? then 1 else 0)
    {
      attempts := attempts + 1;
      err := fault;
      if err.None? {
        delivered := delivered + 1;
      }
    }
  }
}
