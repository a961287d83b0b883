/** The flask object, whose operations update its fields in place, and the window that
    drives it: each button runs one flask operation and then refreshes the display and the
    visibility of the Fill and Drink buttons.
 */
module WaterFlaskGui {
  import opened FlaskSpec
  import Bands

  class WaterFlask {
    var temperature: real    // degrees Celsius, unbounded
    var capacity: real       // millilitres, set once by the constructor
    var currentVolume: real  // millilitres

    /** The flask's fields as a value. */
    function State(): FlaskState
      reads this
    {
      FlaskState(temperature, capacity, currentVolume)
    }

    /** Builds a flask of capacity 500 ml at the given temperature, holding the given
        volume capped at the capacity (a negative volume is kept as it is). */
    constructor (initialTemperature: real, initialVolume: real)
      ensures State() == NewFlask(initialTemperature, initialVolume)
    {
      temperature := initialTemperature;
      capacity := Capacity;
      if initialVolume <= Capacity {
        currentVolume := initialVolume;
      } else {
        currentVolume := Capacity;
      }
    }

    method Heat(degrees: real)
      modifies this
      ensures temperature == old(temperature) + degrees
      ensures capacity == old(capacity) && currentVolume == old(currentVolume)
    {
      temperature := temperature + degrees;
    }

    method Cool(degrees: real)
      modifies this
      ensures temperature == old(temperature) - degrees
      ensures capacity == old(capacity) && currentVolume == old(currentVolume)
    {
      temperature := temperature - degrees;
    }

    method Fill(volume: real)
      modifies this
      ensures currentVolume == FillVolume(old(currentVolume), old(capacity), volume)
      ensures temperature == old(temperature) && capacity == old(capacity)
    {
      if currentVolume + volume <= capacity {
        currentVolume := currentVolume + volume;
      } else {
        currentVolume := capacity;
      }
    }

    method Drink(volume: real)
      modifies this
      ensures currentVolume == DrinkVolume(old(currentVolume), volume)
      ensures temperature == old(temperature) && capacity == old(capacity)
    {
      if currentVolume - volume >= 0.0 {
        currentVolume := currentVolume - volume;
      } else {
        currentVolume := 0.0;
      }
    }

    /** The band the flask picture is drawn for: the first test of the chain that the
        temperature passes. */
    method DisplayBand() returns (band: Bands.Band)
      ensures Bands.InBand(temperature, band)
    {
      if temperature < 0.0 {
        band := Bands.Ice;
      } else if temperature >= 0.0 && temperature <= 20.0 {
        band := Bands.Cool;
      } else if temperature > 20.0 && temperature <= 25.0 {
        band := Bands.RoomTemp;
      } else if temperature > 25.0 && temperature <= 40.0 {
        band := Bands.Warm;
      } else {
        band := Bands.Hot;
      }
    }

    function GetCurrentVolume(): real
      reads this
    {
      currentVolume
    }

    function GetCapacity(): real
      reads this
    {
      capacity
    }
  }

  class Window {
    var flask: WaterFlask
    var fillVisible: bool
    var drinkVisible: bool
    var shownBand: Bands.Band  // the band of the picture currently on display

    /** Opens the window on a flask at 25 degrees holding 250 ml. */
    constructor ()
      ensures fresh(flask) && flask.State() == NewFlask(25.0, 250.0)
      ensures Bands.InBand(flask.temperature, shownBand)
      ensures fillVisible == !FillHidden(flask.State())
      ensures drinkVisible == !DrinkHidden(flask.State())
    {
      flask := new WaterFlask(25.0, 250.0);
      new;
      UpdateDisplay();
    }

    /** Redraws the flask picture and shows Fill only while the flask is below capacity
        and Drink only while it holds something. */
    method UpdateDisplay()
      modifies this`fillVisible, this`drinkVisible, this`shownBand
      ensures Bands.InBand(flask.temperature, shownBand)
      ensures fillVisible == !FillHidden(flask.State())
      ensures drinkVisible == !DrinkHidden(flask.State())
    {
      shownBand := flask.DisplayBand();
      if flask.GetCurrentVolume() >= flask.GetCapacity() {
        fillVisible := false;
      } else {
        fillVisible := true;
      }
      if flask.GetCurrentVolume() <= 0.0 {
        drinkVisible := false;
      } else {
        drinkVisible := true;
      }
    }

    /** A button press: the flask operation the button names with the number read from
        its input field, then a display refresh. */
    method Press(cmd: Command)
      modifies this`fillVisible, this`drinkVisible, this`shownBand, flask
      ensures flask.State() == Apply(old(flask.State()), cmd)
      ensures Bands.InBand(flask.temperature, shownBand)
      ensures fillVisible == !FillHidden(flask.State())
      ensures drinkVisible == !DrinkHidden(flask.State())
    {
      match cmd {
        case Heat(d) => flask.Heat(d);
        case Cool(d) => flask.Cool(d);
        case Fill(v) => flask.Fill(v);
        case Drink(v) => flask.Drink(v);
      }
      UpdateDisplay();
    }
  }

  /** The opening flask, filled past capacity and then drunk past empty: what a caller can
      conclude from the contracts alone. */
  method FillAndDrinkScenario() {
    var w := new Window();
    assert w.flask.currentVolume == 250.0 && w.fillVisible && w.drinkVisible;
    assert w.shownBand == Bands.RoomTemp by {
      Bands.BandsDisjoint(25.0, w.shownBand, Bands.RoomTemp);
    }
    w.Press(Fill(300.0));
    assert w.flask.currentVolume == 500.0 && !w.fillVisible && w.drinkVisible;
    w.Press(Drink(500.0));
    assert w.flask.currentVolume == 0.0 && w.fillVisible && !w.drinkVisible;
    w.Press(Drink(10.0));
    assert w.flask.currentVolume == 0.0 && !w.drinkVisible;
    w.Press(Heat(20.0));
    assert w.flask.temperature == 45.0 && w.shownBand == Bands.Hot;
  }
}
