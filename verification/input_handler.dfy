/** The part of the InputHandler component that the movement controllers
    write: the running duration of the current movement input, and the
    `onJumpPerformed` delegate, of which only the number of times the
    controller's `LocomotionToJumpState` handler is in its invocation list
    matters here. The joystick and touch-field readers are outside the model;
    what they read reaches the controllers as frame inputs. */
module Input {

  class InputHandler {
    /** `movementInputDuration`: seconds the movement input has been held. */
    var movementInputDuration: real
    /** How many times `LocomotionToJumpState` sits in `onJumpPerformed`. */
    var jumpSubscriptions: nat

    constructor ()
      ensures movementInputDuration == 0.0
      ensures jumpSubscriptions == 0
    {
      movementInputDuration := 0.0;
      jumpSubscriptions := 0;
    }
  }
}
