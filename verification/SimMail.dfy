/** The simulated mail edge (email/mail_sim.go): the sent log is the outside world, and sends fail on script. */
module SimMail {
  import opened Content

  class Transmitter {
    var sent: seq<Mail>
    var failSend: int

    constructor ()
      ensures sent == [] && failSend == 0
    {
      sent, failSend := [], 0;
    }

    /** Transmit one message, unless a failure has been scripted for it. */
    method Submit(raw: Mail) returns (ok: bool)
      modifies this
      ensures ok == (old(failSend) <= 0)
      ensures sent == old(sent) + if ok then [raw] else []
      ensures failSend == old(failSend) - if ok then 0 else 1
    {
      if failSend > 0 {
        failSend := failSend - 1;
        return false;
      }
      sent := sent + [raw];
      return true;
    }

    method FailNext(op: string, n: int)
      modifies this
      ensures sent == old(sent)
      ensures failSend == old(failSend) + if op == "send" then n else 0
    {
      if op == "send" {
        failSend := failSend + n;
      }
    }
  }
}
