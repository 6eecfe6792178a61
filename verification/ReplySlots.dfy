/** A shared slot for the one sender of a reply: whoever takes the sender answers. */
module ReplySlots {
  class ReplySlot {
    ghost const number: nat
    var holdsSender: bool

    constructor (ghost number: nat)
      ensures this.number == number && holdsSender
    {
      this.number, holdsSender := number, true;
    }
  }
}
